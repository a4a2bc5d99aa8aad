# Sakanak housing platform: a Dafny model of the matcher and its outer layer

Sakanak helps students who study away from home find housing near their university. This
project models the part of the platform that decides which listings a seeker sees, and
in what order. It also models the state logic around that part. The model covers:

- **The match-scoring engine** (`src/lib/ai-matcher.ts`). It computes four step-function
  sub-scores: distance, price against budget, housing type and amenities. It blends them
  into a match score. It then adds the owner's trust, the price competitiveness within the
  catalog and a distance bonus to form the final score. It rounds the scores, sorts the
  listings stably by final score and keeps the top `limit`. It also produces the label
  helpers for the sentence, the colours and the owner badge.
- **The in-memory stores** (`src/lib/store.ts`): auth, properties, onboarding, messages,
  bookings and reviews. Each store is a Dafny `class`. Each action is a method that
  replaces the fields it sets and states the whole new state.
- **The records, enumerations and constant tables** (`src/types/index.ts`). Lemmas prove
  them consistent with the engine's own tables.
- **The step machines and derivations of the form components**:
  - the onboarding wizard;
  - the post-visit review form and the review record it builds;
  - the add-listing wizard and the listing it builds;
  - the search panel's counters, its city, type and price selects, its price slider and its filter chips;
  - the grouping of messages into conversations;
  - the owner's listing counters and analytics.

Scores are exact reals and `Math.round(x)` is `floor(x + 1/2)`. The great-circle
distance is an abstract function parameter `haversine`. Clock readings are parameters:
`Date.now()` ids and message timestamps.

The price competitiveness is 50 only for an empty group of same-city, same-type listings
(`src/lib/ai-matcher.ts:152`). `getTopMatches` scores every listing against the whole
catalog, and that catalog contains the listing itself. So the group is never empty there.
A listing alone in its city and type is its own mean and scores `min(100, 1 · 80) = 80`
(`Matcher.LoneListingCompetitiveness`). The two worked examples,
`Matcher.LoneNearbyListingScores81` and `Matcher.LoneFarListingScores57`, include that 80.

## Model

| member | source | states |
|---|---|---|
| Matcher.Round | src/lib/ai-matcher.ts:205-207 | `Math.round`: the integer r with r ≤ x + 1/2 < r + 1, so halves round up |
| Matcher.RoundWithin | src/lib/ai-matcher.ts:205-207 | rounding a value between two integers gives a result between them |
| Matcher.RoundKeepsScale | src/lib/ai-matcher.ts:205-207 | a score in 0..100 rounds to an integer in 0..100 |
| Matcher.SupportedUniversitiesHaveCoordinates | src/lib/ai-matcher.ts:25-36 | every university of the supported list has coordinates, so for those the neutral 50 comes only from a listing without coordinates |
| Matcher.DistanceBucket | src/lib/ai-matcher.ts:55-59 | 100 up to 5 km, 70 up to 10, 40 up to 15, 20 beyond; each bound belongs to the closer bucket |
| Matcher.DistanceBucketNonIncreasing | src/lib/ai-matcher.ts:56-59 | a farther listing never gets a higher bucket |
| Matcher.DistanceScore | src/lib/ai-matcher.ts:39-60 | 50 exactly when the university id has no coordinates or the listing has none; otherwise the bucket of the distance between the two |
| Matcher.PriceBand | src/lib/ai-matcher.ts:69-82 | the five bands on price/budget: ≤1 → 100, ≤1.1 → 80, ≤1.2 → 60, ≤1.3 → 40, else 20 |
| Matcher.PriceScore | src/lib/ai-matcher.ts:63-83 | for a positive budget: 100 exactly when the price is within budget, and always one of the five band values |
| Matcher.PriceScoreNonIncreasing | src/lib/ai-matcher.ts:67-82 | a dearer listing never scores higher on price |
| Matcher.PriceScoreReferencePoints | src/lib/ai-matcher.ts:67-82 | at budget 100, at 5% over 80, at 25% over 40, at double 20 |
| Matcher.TypeScore | src/lib/ai-matcher.ts:86-105 | 100 exactly on a match; 60 exactly when the preferred type is a key of the hierarchy and the listing type is one of its alternatives; else 30 |
| Matcher.TypeMismatchScoresSixty | src/lib/ai-matcher.ts:93-101 | between two different types of the three, the type score is 60 |
| Matcher.TypeHierarchyListsTheOthers | src/lib/ai-matcher.ts:93-97 | the hierarchy's keys are the three types and each lists exactly the other two |
| Matcher.UnknownPreferredTypeScoresThirty | src/lib/ai-matcher.ts:99-104 | an unknown preferred type has no alternatives, so any other listing type scores 30 |
| Matcher.PriorityTableMatchesSearchPriorities | src/lib/ai-matcher.ts:115-122 | the priority-to-amenity table has exactly the search priorities as keys |
| Matcher.OnlySafetyAndWifiMapToAmenities | src/lib/ai-matcher.ts:115-122 | only safety → security and strong_wifi → wifi are non-empty, and both targets are amenity ids |
| Matcher.AmenitiesScore | src/lib/ai-matcher.ts:108-134 | the percentage of required amenities the listing has, counting each requirement of the flattened list: matched/required · 100; 100 with no requirement; in 0..100, and 100 exactly when every required amenity is present |
| Matcher.RequiredAmenities | src/lib/ai-matcher.ts:124-125 | one requirement per mapped preference, repeats kept, so never more requirements than preferences; only "security" and "wifi" occur, "security" exactly when "safety" is a preference and "wifi" exactly when "strong_wifi" is; the exact length is in RequiredAmenitiesLength |
| Matcher.Percentage | src/lib/ai-matcher.ts:133 | part/whole·100 lies in 0..100 and is 100 exactly when the part is the whole |
| Matcher.RequiredAmenitiesLength | src/lib/ai-matcher.ts:124-125 | the flattened requirement list has one entry per preference that maps to an amenity |
| Matcher.AmenitiesScoreValues | src/lib/ai-matcher.ts:112-133 | with duplicate-free preferences the amenity score is 0, 50 or 100 |
| Matcher.RepeatedPreferencesCountSeparately | src/lib/ai-matcher.ts:124-133 | a repeated preference adds its amenity again: safety, safety, strong_wifi against a listing with security scores 200/3 |
| Matcher.TrustScore | src/lib/ai-matcher.ts:136-143 | the owner's average trust score when statistics exist, 50 without them; hence in 0..100 when the owner's average is |
| Matcher.PriceCompetitiveness | src/lib/ai-matcher.ts:146-166 | 50 when no catalog listing shares city and type; otherwise in 20..100, and at least 80 at or below the group's mean price |
| Matcher.MarketGroup | src/lib/ai-matcher.ts:150-152 | the catalog listings with the listing's city and type, in catalog order: an order-preserving sublist keeping every copy of each such listing and no other listing, so the mean divides by the full count |
| Matcher.MeanPrice | src/lib/ai-matcher.ts:156-157 | the mean price of a non-empty group: a single listing is its own mean, and positive prices give a positive mean |
| Matcher.BelowMean | src/lib/ai-matcher.ts:160-162 | `min(100, mean/price·80)` at or below the mean lies in 80..100 |
| Matcher.AboveMean | src/lib/ai-matcher.ts:165 | `max(20, 100 − (price − mean)/mean·50)` above the mean lies in 20..100 |
| Matcher.LoneListingCompetitiveness | src/lib/ai-matcher.ts:150-162 | a listing alone in its city and type is its own mean and scores exactly 80 |
| Matcher.DistanceBonus | src/lib/ai-matcher.ts:194 | 100 from a distance score of 90, 70 from 70, else 40 |
| Matcher.CompositesAreAverages | src/lib/ai-matcher.ts:180-201 | both weightings sum to one with non-negative weights: composites of 0..100 scores stay in 0..100, and equal parts give that value |
| Matcher.FinalWithin | src/lib/ai-matcher.ts:197-201 | the final composite is in 0..100 whenever the trust part is |
| Matcher.Scores | src/lib/ai-matcher.ts:175-201 | the unrounded match part is in 0..100, and so is the final part when the owner's trust is |
| Matcher.MatchScore | src/lib/ai-matcher.ts:169-209 | the scored listing carries the listing; the rounded match score is in 0..100; trust and final are too when the owner's average is; trust is the rounded owner average when statistics exist and 50 without them |
| Matcher.MatchComposite | src/lib/ai-matcher.ts:180-185 | the 35/30/20/15 weighted sum of the four sub-scores: between the smallest and the largest sub-score, since the weights are non-negative and sum to one; CompositesAreAverages draws the 0..100 range from this |
| Matcher.FinalComposite | src/lib/ai-matcher.ts:197-201 | the 40/30/20/10 weighted sum of match, trust, competitiveness and distance bonus: between the smallest and the largest part; CompositesAreAverages and FinalWithin draw the 0..100 range from this |
| Matcher.LoneNearbyListingScores81 | src/lib/ai-matcher.ts:169-209 | a lone, in-budget, same-type listing 3 km away, without statistics or preferences, scores match 100, trust 50, final 81 |
| Matcher.LoneFarListingScores57 | src/lib/ai-matcher.ts:169-209 | a lone same-type listing 20 km away at 1.3 times the budget scores match 54, trust 50, final 57 |
| Ranking.InsertPermutes | src/lib/ai-matcher.ts:215 | inserting an element adds exactly that element to the multiset |
| Ranking.InsertSorted | src/lib/ai-matcher.ts:215 | inserting into a descending list keeps it descending |
| Ranking.InsertStable | src/lib/ai-matcher.ts:215 | inserting keeps the order of equal scores, the inserted one last among them |
| Ranking.SortDescSorted | src/lib/ai-matcher.ts:212-216 | the reference sort is descending by final score and keeps the length |
| Ranking.SortDescPermutes | src/lib/ai-matcher.ts:212-216 | the reference sort is a permutation of its input |
| Ranking.SortDescStable | src/lib/ai-matcher.ts:212-216 | the reference sort is stable: for every score, the listings with that score keep their input order |
| Ranking.InsertInPlace | src/lib/ai-matcher.ts:215 | one step of the in-place sort: the prefix up to i becomes the reference insertion of a[i] into the sorted prefix; the rest is unchanged |
| Ranking.SortByFinalScore | src/lib/ai-matcher.ts:212-216 | the array, in place, becomes the reference stable descending sort of its old contents |
| Ranking.JsSlice | src/lib/ai-matcher.ts:229 | `slice(0, limit)`: a prefix of length min(limit, n) for limit ≥ 0; a negative limit drops that many elements from the end |
| Ranking.ScoreAll | src/lib/ai-matcher.ts:224-226 | every listing is scored against the whole catalog, in catalog order |
| Ranking.TopSliceIsBest | src/lib/ai-matcher.ts:228-229 | the slice is a sub-multiset of the input, and no listing left out scores above one kept |
| Ranking.DefaultTopMatches | src/lib/ai-matcher.ts:219-230 | without a limit, the default of 5 applies: the descending top min(5, n) of the sort |
| Ranking.TopMatches | src/lib/ai-matcher.ts:219-230 | getTopMatches is the slice of the stable descending sort of the scored catalog: descending, of length min(limit, n) for limit ≥ 0, a sub-multiset of the scored catalog |
| Ranking.SortedTop | src/lib/ai-matcher.ts:228-229 | on listings already scored: the slice of their stable descending sort, descending, a sub-multiset of them, of length min(limit, n) for limit ≥ 0 |
| MatchLabels.VerdictIndex | src/lib/ai-matcher.ts:240-248 | the verdict tier: 0 from 90, 1 from 75, 2 from 60, else 3, each as an if-and-only-if |
| MatchLabels.RecommendationParts | src/lib/ai-matcher.ts:238-258 | the verdict comes first; the full-trust phrase exactly from trust 90, the trust phrase exactly for 75..89, the preference phrase exactly from match 80, and no other parts; the trust phrase comes second and the preference phrase last |
| MatchLabels.RecommendationText | src/lib/ai-matcher.ts:233-261 | the parts joined with " • ": the sentence starts with the verdict on the final score, and is that verdict alone without a trust phrase (trust below 75) and a preference phrase (match below 80); RecommendationStartsWithVerdict adds that no other verdict starts it |
| MatchLabels.TierPhrasesPrefixFree | src/lib/ai-matcher.ts:240-248 | no verdict phrase is a prefix of another |
| MatchLabels.RecommendationStartsWithVerdict | src/lib/ai-matcher.ts:233-261 | the joined sentence starts with the verdict of its final score and with no other verdict |
| MatchLabels.RecommendationExample | src/lib/ai-matcher.ts:233-261 | final 92, trust 95, match 85 give the three phrases joined with " • " |
| MatchLabels.ColorBand | src/lib/ai-matcher.ts:264-270 | the colour tier: 0 from 90, 1 from 75, 2 from 60, 3 from 40, else 4 |
| MatchLabels.ScoreColor | src/lib/ai-matcher.ts:264-270 | green from 90, emerald from 75, yellow from 60, orange from 40, red below; ColorsAgree ties it to the tier |
| MatchLabels.ScoreBgColor | src/lib/ai-matcher.ts:273-279 | the background classes for the same five tiers; ColorsAgree shows it never disagrees with the text colour |
| MatchLabels.PalettesDistinct | src/lib/ai-matcher.ts:264-279 | the five text colours are distinct, and so are the five backgrounds |
| MatchLabels.ColorsAgree | src/lib/ai-matcher.ts:264-279 | two scores get the same text colour exactly when they get the same background, exactly when they share a tier |
| MatchLabels.ColorBandMonotone | src/lib/ai-matcher.ts:264-270 | a higher score never gets a lower tier |
| MatchLabels.OwnerBadgeFor | src/lib/ai-matcher.ts:282-321 | the new-owner badge exactly without statistics, with no reviews or with the badge 'new'; otherwise the badge of the statistics' own field |
| MatchLabels.TrustedBadgeMatchesTopBand | src/lib/ai-matcher.ts:296-301 | the trusted badge has the full-trust phrase and the top tier's background |
| Types.PropertyTypeIdsAreTheEnum | src/types/index.ts:6 | the three string ids and the enumeration correspond one to one |
| Types.UniversityCitiesSupported | src/types/index.ts:200-223 | every supported university lies in a supported city |
| Types.PropertyTypeTableMatchesEnum | src/types/index.ts:226-230 | the type table lists the three ids in the enumeration's order |
| Store.AuthStore.constructor | src/lib/store.ts:38-39 | no user and not authenticated |
| Store.AuthStore.Logout | src/lib/store.ts:86-88 | clears the user and the authenticated flag |
| Store.AuthStore.SetUser | src/lib/store.ts:90-92 | sets the user; authenticated exactly when a user is given |
| Store.SearchFilterExact | src/lib/store.ts:131-164 | the search result is an order-preserving sublist keeping every copy of each listing that meets every given criterion, and no other listing |
| Store.SearchMatches | src/lib/store.ts:135-161 | the per-listing test of the filter chain: with no truthy criterion every listing passes, and a listing can pass both price bounds only when the minimum is at most the maximum; SearchFilterExact ties it to the search result |
| Store.EmptySearchKeepsAll | src/lib/store.ts:131-161 | criteria with nothing given keep the whole catalog |
| Store.StageStep | src/lib/store.ts:135-161 | each step of the chain filters by the next criterion when it is given and passes the list through otherwise |
| Store.PassesAll | src/lib/store.ts:135-161 | the six steps together are the search's six conditions |
| Store.ChainFilters | src/lib/store.ts:133-161 | after k steps, the list holds the listings that meet the first k criteria |
| Store.ChainIsSearch | src/lib/store.ts:133-163 | the whole chain is the search |
| Store.ReplaceListing | src/lib/store.ts:184-191 | same length and ids; exactly the listings with the new listing's id become it |
| Store.ReplaceListingIdempotent | src/lib/store.ts:184-191 | replacing twice is replacing once |
| Store.RemoveListing | src/lib/store.ts:193-198 | an order-preserving sublist with no listing of the id, keeping every copy of every other listing |
| Store.AddThenRemoveListing | src/lib/store.ts:179-198 | deleting a just-added listing whose id was new restores the catalog |
| Store.Toggled | src/lib/store.ts:170-177 | flips the id's membership, keeps every other id's, and keeps a duplicate-free list duplicate-free |
| Store.ToggledTwice | src/lib/store.ts:170-177 | toggling twice restores every id's membership |
| Store.ToggleEach | src/sections/ExpatFavorites.tsx:28 | toggles each id in turn: an id not toggled keeps its membership, and a duplicate-free list stays duplicate-free; ToggleEachEmpties and ToggleEachWithRepeat give the result on the favourites themselves |
| Store.ToggleEachEmpties | src/sections/ExpatFavorites.tsx:27-29 | toggling each id of a duplicate-free favourites list once empties it |
| Store.ToggleEachWithRepeat | src/sections/ExpatFavorites.tsx:27-29 | with a repeated id, "remove all" leaves that id behind: ["a", "a"] ends as ["a"] |
| Store.PropertiesStore.constructor | src/lib/store.ts:121-124 | empty catalog, filtered list and favourites; nothing selected |
| Store.PropertiesStore.SetProperties | src/lib/store.ts:127-129 | the catalog and the filtered list both become the given list; nothing else changes |
| Store.PropertiesStore.FilterProperties | src/lib/store.ts:131-164 | the filtered list becomes the search of the unchanged catalog; nothing else changes |
| Store.PropertiesStore.SelectProperty | src/lib/store.ts:166-168 | sets the selection only |
| Store.PropertiesStore.ToggleFavorite | src/lib/store.ts:170-177 | the favourites become the toggled list; nothing else changes |
| Store.PropertiesStore.RemoveAllFavorites | src/sections/ExpatFavorites.tsx:27-29 | toggles each id of a snapshot of the favourites; a duplicate-free list ends empty |
| Store.PropertiesStore.AddProperty | src/lib/store.ts:179-182 | the listing is prepended; nothing else changes |
| Store.PropertiesStore.UpdateProperty | src/lib/store.ts:184-191 | the catalog becomes the replaced list; nothing else changes |
| Store.PropertiesStore.DeleteProperty | src/lib/store.ts:193-198 | the catalog becomes the list without the id; nothing else changes |
| Store.ApplyPatch | src/lib/store.ts:239-243 | each supplied field is overwritten and each absent one kept |
| Store.PatchesCompose | src/lib/store.ts:239-243 | two patches in a row are their merge; an empty patch changes nothing; a repeated patch is idempotent |
| Store.OnboardingStore.constructor | src/lib/store.ts:221-235 | step 1, the default criteria (no university, budget 1500, shared bed, no preferences), no matches, not complete |
| Store.OnboardingStore.SetStep | src/lib/store.ts:237 | sets the step only |
| Store.OnboardingStore.SetCriteria | src/lib/store.ts:239-243 | merges the patch into the criteria only |
| Store.OnboardingStore.SetMatches | src/lib/store.ts:245 | sets the matches only |
| Store.OnboardingStore.CompleteOnboarding | src/lib/store.ts:247 | sets the completion flag only |
| Store.OnboardingStore.Reset | src/lib/store.ts:249-254 | back to step 1, the default criteria, no matches, not complete |
| Store.MarkedRead | src/lib/store.ts:291-298 | same length; exactly the messages with the id become read |
| Store.MarkedReadIdempotent | src/lib/store.ts:291-298 | marking twice is marking once |
| Store.MessagesStore.constructor | src/lib/store.ts:276-277 | no messages, no active conversation |
| Store.MessagesStore.SetMessages | src/lib/store.ts:280 | replaces the messages only |
| Store.MessagesStore.AddMessage | src/lib/store.ts:282-285 | appends the message; the active conversation is unchanged |
| Store.MessagesStore.SetActiveConversation | src/lib/store.ts:287-289 | sets the active conversation only |
| Store.MessagesStore.MarkAsRead | src/lib/store.ts:291-298 | the messages become the marked list; nothing else changes |
| Store.ReplaceBooking | src/lib/store.ts:324-331 | same length and ids; exactly the bookings with the new booking's id become it |
| Store.CancelledIn | src/lib/store.ts:333-340 | same length; exactly the bookings with the id become cancelled, with their other fields kept |
| Store.BookingUpdatesIdempotent | src/lib/store.ts:324-340 | cancelling twice is cancelling once; updating twice is updating once |
| Store.BookingsStore.constructor | src/lib/store.ts:314 | no bookings |
| Store.BookingsStore.SetBookings | src/lib/store.ts:317 | replaces the bookings |
| Store.BookingsStore.AddBooking | src/lib/store.ts:319-322 | prepends the booking |
| Store.BookingsStore.UpdateBooking | src/lib/store.ts:324-331 | the bookings become the replaced list |
| Store.BookingsStore.CancelBooking | src/lib/store.ts:333-340 | the bookings become the cancelled list |
| Store.PropertyReviews | src/lib/store.ts:366-369 | the order-preserving sublist of reviews with the property id, keeping every copy of each and no other review |
| Store.OwnerReviews | src/lib/store.ts:371-374 | the order-preserving sublist of reviews with the owner id, keeping every copy of each and no other review |
| Store.AddedReviewListedFirst | src/lib/store.ts:361-374 | a new review heads its property's and its owner's lists and leaves the others as they were |
| Store.ReviewsStore.constructor | src/lib/store.ts:356 | no reviews |
| Store.ReviewsStore.SetReviews | src/lib/store.ts:359 | replaces the reviews |
| Store.ReviewsStore.AddReview | src/lib/store.ts:361-364 | prepends the review |
| Store.ReviewsStore.GetPropertyReviews | src/lib/store.ts:366-369 | the store's reviews of that property, all of them in order, as `Store.PropertyReviews` gives |
| Store.ReviewsStore.GetOwnerReviews | src/lib/store.ts:371-374 | the store's reviews of that owner, all of them in order, as `Store.OwnerReviews` gives |
| PostVisit.InitialChecklist | src/sections/PostVisitReview.tsx:50-55 | the checklist has the listing's amenities as keys, all ticked |
| PostVisit.InitialChecklistCount | src/sections/PostVisitReview.tsx:75 | left unchanged, the checklist counts every distinct listing amenity |
| PostVisit.TickedCount | src/sections/PostVisitReview.tsx:75 | the number of ticked amenities: at most the number of checklist entries, and 0 exactly when nothing is ticked |
| PostVisit.OverallRating | src/sections/PostVisitReview.tsx:77 | the mean of the two ratings with halves rounded up: (photos + honesty + 1) div 2 |
| PostVisit.ReviewTrustRange | src/sections/PostVisitReview.tsx:83 | for answers the buttons offer, the trust score lies in 43..100, with 100 at 5/5 and 43 at 1/1 |
| PostVisit.SafetyAccuracy | src/sections/PostVisitReview.tsx:76 | 5 exactly for 'yes' or 'better', 2 for anything else |
| PostVisit.NewReview | src/sections/PostVisitReview.tsx:66-84 | the review's ids, ratings, ticked count, safety 2 or 5, rounded overall rating, recommendation exactly for 'yes' and 'strongly_yes', no photos and the trust score |
| PostVisit.ReviewTrust | src/sections/PostVisitReview.tsx:83 | the integer nearest to (photos + honesty + 4) / 14 · 100, and 100 for full marks; ReviewTrustRange bounds it to 43..100 for the form's answers |
| PostVisit.Recommends | src/sections/PostVisitReview.tsx:78 | among the form's four answers, true exactly for all but 'neutral' and 'no', and never true for any other string |
| PostVisit.ProgressPercent | src/sections/PostVisitReview.tsx:240 | the header percentage: within 0..100 for steps 0..5 and 100 at the last step; ProgressPercentIsTwentyPerStep gives 20 per step |
| PostVisit.ProgressPercentIsTwentyPerStep | src/sections/PostVisitReview.tsx:240 | the progress `round(step/5·100)` is 20 per step |
| PostVisit.ReviewForm.constructor | src/sections/PostVisitReview.tsx:29-55 | step 1, no answers, the checklist all ticked |
| PostVisit.ReviewForm.ClickNext | src/sections/PostVisitReview.tsx:267-275 | one step forward exactly when Next is shown and enabled (below step 5, answered at steps 1, 3 and 4); answers unchanged; step stays in 1..5 |
| PostVisit.ReviewForm.ClickBack | src/sections/PostVisitReview.tsx:257-265 | one step back, disabled at step 1; answers unchanged |
| PostVisit.ReviewForm.ChoosePhotos | src/sections/PostVisitReview.tsx:101-109 | sets the photo rating to an offered value only |
| PostVisit.ReviewForm.ChooseHonesty | src/sections/PostVisitReview.tsx:148-149 | sets the honesty rating to a star only |
| PostVisit.ReviewForm.SetChecked | src/sections/PostVisitReview.tsx:133 | sets one checklist entry only |
| PostVisit.ReviewForm.ChooseSafety | src/sections/PostVisitReview.tsx:171 | sets the safety answer only |
| PostVisit.ReviewForm.ChooseRecommendation | src/sections/PostVisitReview.tsx:197 | sets the recommendation only |
| PostVisit.ReviewForm.SetComment | src/sections/PostVisitReview.tsx:212 | sets the comment only |
| PostVisit.ReviewForm.ClickSubmit | src/sections/PostVisitReview.tsx:277-284 | when Submit is enabled (step 5 and a recommendation), prepends the review, whose ratings are offered values and whose trust lies in 43..100; otherwise nothing changes |
| Onboarding.CanProceed | src/components/onboarding-wizard/OnboardingWizard.tsx:59-74 | step 1 needs a university, step 2 a positive budget, step 3 a type; steps 4 and 5 always; any other step never |
| Onboarding.DefaultCriteriaGates | src/components/onboarding-wizard/OnboardingWizard.tsx:59-74 | the default criteria hold the wizard at step 1 only |
| Onboarding.HandleNext | src/components/onboarding-wizard/OnboardingWizard.tsx:36-47 | below step 5 one step forward; at step 5 the onboarding completes; criteria unchanged |
| Onboarding.HandleBack | src/components/onboarding-wizard/OnboardingWizard.tsx:49-57 | above step 1 one step back, otherwise nothing |
| Onboarding.ClickNext | src/components/onboarding-wizard/OnboardingWizard.tsx:164-171 | disabled unless canProceed; the step stays in 1..5, and completion happens only from step 5 |
| Onboarding.ClickBack | src/components/onboarding-wizard/OnboardingWizard.tsx:154-162 | disabled at step 1; the step stays in 1..5 |
| Onboarding.SearchUniversities | src/components/onboarding-wizard/OnboardingWizard.tsx:189-194 | an order-preserving sublist keeping every copy of each university whose Arabic name or city contains the term, or whose English name does ignoring ASCII case, and no other |
| Onboarding.EmptySearchListsAll | src/components/onboarding-wizard/OnboardingWizard.tsx:189-194 | an empty term lists every university |
| Onboarding.ChooseUniversity | src/components/onboarding-wizard/OnboardingWizard.tsx:222 | sets the university only |
| Onboarding.BudgetInputsPositive | src/components/onboarding-wizard/OnboardingWizard.tsx:262-280 | slider values and presets are multiples of 50 in 500..3000, hence positive, which the price score requires |
| Onboarding.SlideBudget | src/components/onboarding-wizard/OnboardingWizard.tsx:264-267 | sets a positive budget only |
| Onboarding.ChooseBudgetPreset | src/components/onboarding-wizard/OnboardingWizard.tsx:277-280 | sets a positive preset budget only |
| Onboarding.ChooseType | src/components/onboarding-wizard/OnboardingWizard.tsx:320 | sets the type only |
| Onboarding.TogglePriority | src/components/onboarding-wizard/OnboardingWizard.tsx:346-355 | flips one priority's membership, keeps the preferences duplicate-free and the other criteria unchanged |
| Onboarding.SetNotes | src/components/onboarding-wizard/OnboardingWizard.tsx:411 | sets the notes only |
| AddProperty.CanProceed | src/sections/OwnerAddProperty.tsx:78-91 | step 1 needs title, description, city and location; step 2 a positive price and a type; steps 3 and 4 always; any other step never |
| AddProperty.InitialFormGates | src/sections/OwnerAddProperty.tsx:27-41 | the blank form blocks step 1, and its default price and type pass step 2 |
| AddProperty.NewListing | src/sections/OwnerAddProperty.tsx:58-71 | the form's fields; unverified, not featured, available; no coordinates or statistics; owned by the user or 'owner-001'; the placeholder picture when none was given; distance score 50 for every university |
| AddProperty.ListingId | src/sections/OwnerAddProperty.tsx:59 | the id starts with "prop-", and the rest reads back as the clock reading |
| AddProperty.NewListingHasPicture | src/sections/OwnerAddProperty.tsx:68-70 | the new listing always has a first picture: the form's first or the placeholder |
| AddProperty.NewListingFoundByItsForm | src/sections/OwnerAddProperty.tsx:58-71 | a search on the form's city, type and amenities finds the new listing |
| AddProperty.AddPropertyWizard.constructor | src/sections/OwnerAddProperty.tsx:25-41 | step 1 and the initial form |
| AddProperty.AddPropertyWizard.ClickBack | src/sections/OwnerAddProperty.tsx:373-374 | `max(1, s − 1)`, disabled at step 1; the form is unchanged |
| AddProperty.AddPropertyWizard.ClickNext | src/sections/OwnerAddProperty.tsx:379-382 | below step 4, one step forward exactly when canProceed; the form is unchanged |
| AddProperty.AddPropertyWizard.ToggleAmenity | src/sections/OwnerAddProperty.tsx:43-50 | flips one amenity's membership and leaves every other field and the step unchanged |
| AddProperty.AddPropertyWizard.SetTitle | src/sections/OwnerAddProperty.tsx:145 | sets the title only |
| AddProperty.AddPropertyWizard.SetDescription | src/sections/OwnerAddProperty.tsx:157 | sets the description only |
| AddProperty.AddPropertyWizard.SetCity | src/sections/OwnerAddProperty.tsx:171 | sets the city only |
| AddProperty.AddPropertyWizard.SetLocation | src/sections/OwnerAddProperty.tsx:192 | sets the location only |
| AddProperty.AddPropertyWizard.SetPrice | src/sections/OwnerAddProperty.tsx:214 | sets the price only |
| AddProperty.AddPropertyWizard.SetPriceType | src/sections/OwnerAddProperty.tsx:226 | sets the price type only |
| AddProperty.AddPropertyWizard.SetType | src/sections/OwnerAddProperty.tsx:244 | sets the type only |
| AddProperty.AddPropertyWizard.SetRooms | src/sections/OwnerAddProperty.tsx:269 | sets the rooms only |
| AddProperty.AddPropertyWizard.SetBeds | src/sections/OwnerAddProperty.tsx:285 | sets the beds only |
| AddProperty.AddPropertyWizard.SetBathrooms | src/sections/OwnerAddProperty.tsx:301 | sets the bathrooms only |
| AddProperty.AddPropertyWizard.Submit | src/sections/OwnerAddProperty.tsx:52-76 | at step 4, the new listing is prepended to the catalog; the filtered list and favourites are unchanged |
| SmartFilter.ActiveFiltersCount | src/components/smart-filter/SmartFilter.tsx:37-51 | at most 5, and positive exactly when hasActiveFilters |
| SmartFilter.ToggleAmenity | src/components/smart-filter/SmartFilter.tsx:53-66 | flips one amenity's membership (an absent list counts as empty), keeps the others and copies every other criterion |
| SmartFilter.ToggledOnIsActive | src/components/smart-filter/SmartFilter.tsx:53-66 | an amenity toggled on makes the filters active |
| SmartFilter.PriceBound | src/components/smart-filter/SmartFilter.tsx:138-142 | `Number(part) \|\| undefined`: a bound exactly for a non-zero number, equal to it |
| SmartFilter.ChoosePrice | src/components/smart-filter/SmartFilter.tsx:137-144 | only the two price bounds change |
| SmartFilter.SelectedOrNone | src/components/smart-filter/SmartFilter.tsx:109 | `value \|\| undefined`: no value for the empty option, the value otherwise |
| SmartFilter.ChooseCity | src/components/smart-filter/SmartFilter.tsx:107-118 | only the city changes; it is set exactly when a city is chosen |
| SmartFilter.ChooseType | src/components/smart-filter/SmartFilter.tsx:120-132 | only the type changes; it is set exactly when a type is chosen |
| SmartFilter.SelectsRoundTrip | src/components/smart-filter/SmartFilter.tsx:107-132 | each select then shows the chosen option, and the "all" option takes that criterion out of the active-filter count |
| SmartFilter.SlidePrice | src/components/smart-filter/SmartFilter.tsx:165-176 | the slider sets both bounds exactly as dragged and changes nothing else |
| SmartFilter.SliderRoundTrip | src/components/smart-filter/SmartFilter.tsx:136-176 | for slider positions, the thumbs then show the dragged bounds and the price filter is active; the slider's full range sets a minimum of 500, where the select's "0-3000" sets none |
| SmartFilter.OrElse | src/components/smart-filter/SmartFilter.tsx:136 | `n \|\| fallback`: the value when set and non-zero, else the fallback |
| SmartFilter.PriceRoundTrip | src/components/smart-filter/SmartFilter.tsx:136-144 | choosing "a-b" with b > 0 sets the minimum to a (none for 0) and the maximum to b, and the select then shows "a-b" again |
| SmartFilter.OptionsAreRenderedBounds | src/components/smart-filter/SmartFilter.tsx:147-151 | each option is two decimal bounds joined by '-' |
| SmartFilter.PriceOptionsRoundTrip | src/components/smart-filter/SmartFilter.tsx:136-151 | every option of the select survives the round trip through the criteria |
| SmartFilter.AllPricesIsStillAFilter | src/components/smart-filter/SmartFilter.tsx:137-147 | "0-3000" sets no minimum but a maximum of 3000, which counts as an active filter |
| SmartFilter.Find | src/components/smart-filter/SmartFilter.tsx:235 | an entry with the id exactly when one exists, and then the first entry with that id |
| SmartFilter.LabelOf | src/components/smart-filter/SmartFilter.tsx:235 | the name of the first entry with the id when that name is not empty, otherwise the id itself; the id itself when no entry has it |
| SmartFilter.AmenityLabels | src/components/smart-filter/SmartFilter.tsx:246-248 | each amenity id shown by its label, in order |
| SmartFilter.FilterChipsExact | src/components/smart-filter/SmartFilter.tsx:228-250 | the chip keys are the order city, type, price, amenities restricted to the criteria that are set |
| SmartFilter.FilterChipsCounted | src/components/smart-filter/SmartFilter.tsx:228-250 | the chips number the active-filter count, minus one when a university is set, since no chip shows it |
| SmartFilter.FilterChipsInOrder | src/components/smart-filter/SmartFilter.tsx:228-250 | the chips follow the display order and each set criterion has exactly its chip |
| SmartFilter.PriceChipDefaults | src/components/smart-filter/SmartFilter.tsx:239-243 | an unset minimum and a zero maximum are shown as "500-3000 ج" |
| SmartFilter.TypeChipLabels | src/components/smart-filter/SmartFilter.tsx:234-236 | a known type id is shown by its Arabic name, an unknown one as itself |
| SmartFilter.ActiveFilters | src/components/smart-filter/SmartFilter.tsx:227-252 | pushes the chips one criterion at a time; renders nothing exactly when there are none, which is exactly when the count has only the university in it |
| Conversations.UserMessages | src/sections/ExpatMessages.tsx:31-33 | an order-preserving sublist keeping every copy of each message the user sent or received, and no other; none without a user |
| Conversations.Other | src/sections/ExpatMessages.tsx:35-36 | the message's other party: its sender or its receiver, and never the user when exactly one side is the user |
| Conversations.Parties | src/sections/ExpatMessages.tsx:38-44 | the grouping's keys in creation order: no more keys than messages, and every message's other party among them; PartiesExact adds that they are distinct and are exactly the parties with a message |
| Conversations.GroupOf | src/sections/ExpatMessages.tsx:46 | the messages pushed onto one party's group: no more than the user's messages, each with that party as other party; GroupIsFilter shows it is exactly the filter on that party |
| Conversations.UnreadIn | src/sections/ExpatMessages.tsx:48-50 | the unread counter of a group: at most its length, and 0 when every message is read or was not addressed to the user; UnreadIsCount shows it counts exactly the unread messages addressed to the user |
| Conversations.LatestIndex | src/sections/ExpatMessages.tsx:53-55 | a message with the greatest timestamp, every earlier one strictly older, so ties keep the first |
| Conversations.Summary | src/sections/ExpatMessages.tsx:35-58 | the last message of a conversation is one of its messages |
| Conversations.GroupIsFilter | src/sections/ExpatMessages.tsx:35-47 | a party's conversation holds exactly the user's messages whose other party it is, in order, so each message lands in one conversation |
| Conversations.UnreadIsCount | src/sections/ExpatMessages.tsx:49-51 | the unread counter counts the messages the user received and has not read |
| Conversations.SummaryMeaning | src/sections/ExpatMessages.tsx:35-58 | a conversation has its party's messages in order, the unread count of them, and a last message no older than any of them |
| Conversations.PartiesExact | src/sections/ExpatMessages.tsx:35-63 | the conversation keys are distinct, and a party has a conversation exactly when it has a message |
| Conversations.FirstPartyIsEarliest | src/sections/ExpatMessages.tsx:86-90 | the first conversation is the one of the earliest message involving the user |
| Conversations.AddToGroups | src/sections/ExpatMessages.tsx:36-57 | the reduce callback: after one message, the keys and every conversation equal the specification of the longer prefix |
| Conversations.GroupedStep | src/sections/ExpatMessages.tsx:36-57 | pushing the message, counting it when unread and keeping it as last only when strictly newer keeps every conversation equal to its specification |
| Conversations.GroupConversations | src/sections/ExpatMessages.tsx:30-58 | no conversations without a user; otherwise the distinct parties in first-message order, each conversation equal to its specification |
| Conversations.SelectedAfterGrouping | src/sections/ExpatMessages.tsx:86-90 | the active conversation wins; otherwise the first conversation, only when none is selected; otherwise the selection stays |
| Conversations.SelectionSettles | src/sections/ExpatMessages.tsx:86-90 | running the selection again changes nothing |
| Conversations.ConversationMessages | src/sections/ExpatMessages.tsx:118-124 | the messages between the user and the selected party, both ways, in order, every copy of each and no other message; none without a selection |
| Conversations.ShownMessagesAreTheGroup | src/sections/ExpatMessages.tsx:118-124 | the open conversation shows exactly the messages the grouping puts in that party's conversation |
| Conversations.SentMessageShownLast | src/sections/ExpatMessages.tsx:126-140 | a message sent to the open party is shown last in the conversation |
| Conversations.NewMessage | src/sections/ExpatMessages.tsx:129-137 | from the user to the party, unread, with the content, listing id and clock reading given |
| Conversations.SendMessage | src/sections/ExpatMessages.tsx:126-140 | nothing without a selection or a user; otherwise appends the new message to the store |
| OwnerListings.OwnerOf | src/sections/OwnerProperties.tsx:44 | the user's id, or 'owner-001' without a user or with an empty id |
| OwnerListings.OwnerProperties | src/sections/OwnerProperties.tsx:44 | an order-preserving sublist keeping every copy of each listing of that owner and no other listing, so its length is the page's count |
| OwnerListings.PropertyStatsOf | src/sections/OwnerProperties.tsx:46-53 | the listing's bookings, its pending and its confirmed ones; pending + confirmed ≤ total |
| OwnerListings.DisjointCounts | src/sections/OwnerProperties.tsx:50-51 | two tests no element passes together select at most the whole list |
| OwnerListings.PendingCard | src/sections/OwnerProperties.tsx:92 | the pending-visits card is at most the number of bookings, and 0 without pending bookings |
| OwnerListings.PendingCardSumsTheCards | src/sections/OwnerProperties.tsx:92 | with distinct listing ids, the pending card equals the sum of the listing cards' pending counters |
| OwnerListings.SearchOwned | src/sections/OwnerProperties.tsx:120-121 | an order-preserving sublist keeping every copy of each listing whose title or location contains the term, and no other |
| OwnerListings.EmptySearchKeepsAll | src/sections/OwnerProperties.tsx:120-121 | an empty term keeps every listing |
| OwnerAnalytics.OwnerBookings | src/sections/OwnerAnalytics.tsx:39 | an order-preserving sublist keeping every copy of each booking of any owner listing and no other booking, so its length is the page's request count |
| OwnerAnalytics.PendingCardAmongOwnerBookings | src/sections/OwnerAnalytics.tsx:38-39 | the listings page's pending card counts the pending bookings among the analytics page's bookings |
| OwnerAnalytics.AnalyticsReviews | src/sections/OwnerAnalytics.tsx:40 | an order-preserving sublist keeping every copy of each review with the owner's id, whatever listings the owner has, and no other review |
| OwnerAnalytics.AverageTrustScore | src/sections/OwnerAnalytics.tsx:42-44 | 0 without reviews |
| OwnerAnalytics.AverageTrustInRange | src/sections/OwnerAnalytics.tsx:42-44 | scores in 0..100 average to a score in 0..100 |
| OwnerAnalytics.UniformScoresAverage | src/sections/OwnerAnalytics.tsx:42-44 | reviews that all score the same integer average to it |
| OwnerAnalytics.UnscoredReviewStillCounts | src/sections/OwnerAnalytics.tsx:42-44 | a review without a score adds 0 to the sum but 1 to the count |

## Left out

- The haversine distance at `src/lib/ai-matcher.ts:7-22` is trigonometric floating point. It is the parameter `haversine`, and only the thresholds on its result are modelled.
- IEEE double arithmetic is not modelled. Scores are exact reals, so band edges such as a price ratio of exactly 1.1 behave as written.
- Matcher.PriceScore and Matcher.PriceCompetitiveness require a positive budget and positive prices, so they say nothing about zero. The source's results there are as follows. The onboarding's budget inputs are always positive (`Onboarding.BudgetInputsPositive`).
  - With a budget of 0, the ratio is Infinity, or NaN for a price of 0. Every band test fails, so the price score is 20.
  - A price of 0 at or below a positive mean gives `Math.min(100, Infinity)`, which is 100.
  - When the price and the group's mean are both 0, the result is NaN.
- The auth store's persistence and its asynchronous login and register are not modelled. They use local storage, a timer and mock users. The same holds for the persistence of the other stores and their `isLoading` flags.
- The UI store (sidebar, theme, language) is not modelled. It is presentation state.
- Clock readings are parameters: the `Date.now()` ids, `new Date()` timestamps and visit dates. Random view counts and the shuffle on the dashboards are not modelled.
- The delays are not modelled: the onboarding wizard's 300 ms animation, the add-listing submit's 1.5 s wait and its `isSubmitting` flag. Each action takes effect at once.
- PostVisit.ReviewForm.ClickSubmit stops after adding the review. The source then calls `completeBooking`, which the bookings store does not define, so that call and the navigation after it are not modelled.
- Loading seed data into empty stores is not modelled, nor are the seed records themselves. This covers the pages' effects, and the conversation's other-party profile and listing, which come from seed lookups. `Conversations.SendMessage` therefore takes the listing id as a parameter.
- JavaScript's `Object.entries` lists integer-like keys first, in numeric order. `Conversations.Parties` keeps first-message order for every key. User ids are not integer-like strings.
- The conversations list is a React state set inside the grouping effect. The model returns it from `Conversations.GroupConversations` instead.
- `toLowerCase` is modelled on ASCII letters only.
- `Number(...)` on a string is modelled for decimal digit strings. Anything else is NaN, which `|| undefined` turns into no bound, and so is the empty string.
- `setCriteria` with a field explicitly set to `undefined` is not modelled. A patch field is either supplied or absent.
- The search panel's expand toggle, its results counter and the slider's dragging are not modelled. `SmartFilter.SlidePrice` takes the two values the slider reports. The `onRemove` and `onReset` callbacks belong to the parent page and are not modelled either.
- The filtering effect in `src/sections/ExpatSearch.tsx` computes a list and discards it. The store's `filterProperties` is modelled instead.
- `src/sections/OwnerEditProperty.tsx` repeats the add-listing amenity toggle and adds a redirect, so it is not modelled separately.
- Routing, layout and pages that only delegate to the stores or the matcher are not modelled. This covers the landing, login, register, bookings, favourites and dashboard pages, the navigation bars and the property card. The exception is the favourites page's "remove all" (`Store.PropertiesStore.RemoveAllFavorites`).
- The chat interface's date formatting and grouping by day are not modelled. They depend on the locale and the clock.
- The analytics page's fixed figures are not modelled: views, response rate and the change percentages.
- AddProperty.AddPropertyWizard.SetRooms, SetBeds and SetBathrooms take an integer count. The source stores `Number(e.target.value)` from a number input, which can be fractional, or NaN for an empty field. Those values are not modelled.
- OwnerAnalytics.AverageTrustScore states only the empty case in its own contract. Its value on reviews is given instead by the three lemmas after it: range, uniform scores and unscored reviews.
