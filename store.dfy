/** The application's in-memory stores (src/lib/store.ts). Each zustand store is a class
    whose fields are the store's state; each action is a method that replaces the fields
    it sets and leaves the rest as they were. Persistence to local storage, the loading
    flags and the asynchronous login and register are not part of this model. */
module Store {
  import opened Wrappers
  import opened Seqs
  import opened Text
  import opened Types

  // ================================================================ auth

  class AuthStore {
    var user: Option<User>
    var isAuthenticated: bool

    constructor ()
      ensures user == None && !isAuthenticated
    {
      user := None;
      isAuthenticated := false;
    }

    /** logout. */
    method Logout()
      modifies this
      ensures user == None && !isAuthenticated
    {
      user := None;
      isAuthenticated := false;
    }

    /** setUser: `isAuthenticated` becomes `!!user`. */
    method SetUser(u: Option<User>)
      modifies this
      ensures user == u && (isAuthenticated <==> u.Some?)
    {
      user := u;
      isAuthenticated := u.Some?;
    }
  }

  // ================================================================ search

  /** `p.nearTo.some(u => u.includes(university))`. */
  predicate NearUniversity(p: Property, university: string) {
    exists i :: 0 <= i < |p.nearTo| && Contains(p.nearTo[i], university)
  }

  /** `amenities.every(a => p.amenities.includes(a))`. */
  predicate HasAmenities(p: Property, amenities: seq<string>) {
    forall i :: 0 <= i < |amenities| ==> amenities[i] in p.amenities
  }

  predicate AmenitiesGiven(c: SearchCriteria) {
    c.amenities.Some? && |c.amenities.value| > 0
  }

  /** A listing meets search criteria when it meets each criterion that is given: a
      non-empty city, university or type, a present price bound, a non-empty amenity
      list. The distance bound is never applied. */
  predicate SearchMatches(p: Property, c: SearchCriteria): (b: bool)
    ensures (!Filled(c.city) && !Filled(c.university) && c.minPrice.None? && c.maxPrice.None? &&
             !Filled(c.propertyType) && !AmenitiesGiven(c)) ==> b
    ensures b && c.minPrice.Some? && c.maxPrice.Some? ==> c.minPrice.value <= c.maxPrice.value
  {
    && (Filled(c.city) ==> p.city == c.city.value)
    && (Filled(c.university) ==> NearUniversity(p, c.university.value))
    && (c.minPrice.Some? ==> p.price >= c.minPrice.value as real)
    && (c.maxPrice.Some? ==> p.price <= c.maxPrice.value as real)
    && (Filled(c.propertyType) ==> p.propertyType == c.propertyType.value)
    && (AmenitiesGiven(c) ==> HasAmenities(p, c.amenities.value))
  }

  function MatchesSearch(c: SearchCriteria): Property -> bool {
    (p: Property) => SearchMatches(p, c)
  }

  /** The listings that meet the criteria, in catalog order. */
  function SearchFilter(ps: seq<Property>, c: SearchCriteria): seq<Property> {
    Filter(ps, MatchesSearch(c))
  }

  /** The search keeps exactly the listings meeting every given criterion, in order. */
  lemma SearchFilterExact(ps: seq<Property>, c: SearchCriteria)
    ensures IsSublist(SearchFilter(ps, c), ps)
    ensures forall i :: 0 <= i < |SearchFilter(ps, c)| ==> SearchMatches(SearchFilter(ps, c)[i], c)
    ensures forall i :: 0 <= i < |ps| && SearchMatches(ps[i], c) ==> ps[i] in SearchFilter(ps, c)
    ensures forall q :: multiset(SearchFilter(ps, c))[q] == if SearchMatches(q, c) then multiset(ps)[q] else 0
  {
    FilterIsSublist(ps, MatchesSearch(c));
    FilterMultiset(ps, MatchesSearch(c));
  }

  /** Criteria with nothing truthy keep the whole catalog. */
  lemma EmptySearchKeepsAll(ps: seq<Property>, c: SearchCriteria)
    requires !Filled(c.city) && !Filled(c.university) && c.minPrice.None? && c.maxPrice.None?
    requires !Filled(c.propertyType) && !AmenitiesGiven(c)
    ensures SearchFilter(ps, c) == ps
  {
    FilterKeepsAll(ps, MatchesSearch(c));
  }

  /** Criterion `k` of the filter chain, in the order the source applies them. */
  predicate Stage(p: Property, c: SearchCriteria, k: nat) {
    if k == 0 then Filled(c.city) ==> p.city == c.city.value
    else if k == 1 then Filled(c.university) ==> NearUniversity(p, c.university.value)
    else if k == 2 then c.minPrice.Some? ==> p.price >= c.minPrice.value as real
    else if k == 3 then c.maxPrice.Some? ==> p.price <= c.maxPrice.value as real
    else if k == 4 then Filled(c.propertyType) ==> p.propertyType == c.propertyType.value
    else if k == 5 then AmenitiesGiven(c) ==> HasAmenities(p, c.amenities.value)
    else true
  }

  /** The first `k` criteria of the chain. */
  predicate PassesFirst(p: Property, c: SearchCriteria, k: nat) {
    k == 0 || (PassesFirst(p, c, k - 1) && Stage(p, c, k - 1))
  }

  function Upto(c: SearchCriteria, k: nat): Property -> bool {
    (p: Property) => PassesFirst(p, c, k)
  }

  /** Whether the source applies criterion `k`. */
  predicate Given(c: SearchCriteria, k: nat) {
    if k == 0 then Filled(c.city)
    else if k == 1 then Filled(c.university)
    else if k == 2 then c.minPrice.Some?
    else if k == 3 then c.maxPrice.Some?
    else if k == 4 then Filled(c.propertyType)
    else if k == 5 then AmenitiesGiven(c)
    else false
  }

  /** The filter the source applies for criterion `k`. */
  function Test(c: SearchCriteria, k: nat): Property -> bool
    requires Given(c, k)
  {
    match k
    case 0 => CityIs(c.city.value)
    case 1 => NearTo(c.university.value)
    case 2 => PriceAtLeast(c.minPrice.value)
    case 3 => PriceAtMost(c.maxPrice.value)
    case 4 => TypeIs(c.propertyType.value)
    case _ => HasAll(c.amenities.value)
  }

  /** One step of the chain: filtering by the first `k` criteria and then, when given,
      by criterion `k` is filtering by the first `k + 1`. */
  lemma StageStep(ps: seq<Property>, c: SearchCriteria, k: nat)
    requires k < 6
    ensures Given(c, k) ==> Filter(Filter(ps, Upto(c, k)), Test(c, k)) == Filter(ps, Upto(c, k + 1))
    ensures !Given(c, k) ==> Filter(ps, Upto(c, k)) == Filter(ps, Upto(c, k + 1))
  {
    if Given(c, k) {
      assert forall p :: Test(c, k)(p) == Stage(p, c, k);
      FilterTwice(ps, Upto(c, k), Test(c, k), Upto(c, k + 1));
    } else {
      assert forall p :: Stage(p, c, k);
      FilterAgree(ps, Upto(c, k), Upto(c, k + 1));
    }
  }

  /** The six criteria of the chain are the search's six conditions. */
  lemma PassesAll(p: Property, c: SearchCriteria)
    ensures PassesFirst(p, c, 6) == SearchMatches(p, c)
  {
    assert PassesFirst(p, c, 1) == Stage(p, c, 0);
    assert PassesFirst(p, c, 2) == (Stage(p, c, 0) && Stage(p, c, 1));
    assert PassesFirst(p, c, 3) == (PassesFirst(p, c, 2) && Stage(p, c, 2));
    assert PassesFirst(p, c, 4) == (PassesFirst(p, c, 3) && Stage(p, c, 3));
    assert PassesFirst(p, c, 5) == (PassesFirst(p, c, 4) && Stage(p, c, 4));
  }

  /** The list after the first `k` steps of filterProperties: each step filters by its
      criterion when that criterion is given and passes the list on otherwise. */
  function Chain(ps: seq<Property>, c: SearchCriteria, k: nat): seq<Property>
    requires k <= 6
  {
    if k == 0 then ps
    else if Given(c, k - 1) then Filter(Chain(ps, c, k - 1), Test(c, k - 1))
    else Chain(ps, c, k - 1)
  }

  /** After `k` steps the list holds the listings meeting the first `k` criteria. */
  lemma {:induction false} ChainFilters(ps: seq<Property>, c: SearchCriteria, k: nat)
    requires k <= 6
    ensures Chain(ps, c, k) == Filter(ps, Upto(c, k))
  {
    if k == 0 {
      FilterKeepsAll(ps, Upto(c, 0));
    } else {
      ChainFilters(ps, c, k - 1);
      StageStep(ps, c, k - 1);
    }
  }

  /** The whole chain is the search. */
  lemma ChainIsSearch(ps: seq<Property>, c: SearchCriteria)
    ensures Chain(ps, c, 6) == SearchFilter(ps, c)
  {
    ChainFilters(ps, c, 6);
    forall p | p in ps
      ensures Upto(c, 6)(p) == MatchesSearch(c)(p)
    {
      PassesAll(p, c);
    }
    FilterAgree(ps, Upto(c, 6), MatchesSearch(c));
  }

  function CityIs(city: string): Property -> bool {
    (p: Property) => p.city == city
  }

  function NearTo(university: string): Property -> bool {
    (p: Property) => NearUniversity(p, university)
  }

  function PriceAtLeast(bound: int): Property -> bool {
    (p: Property) => p.price >= bound as real
  }

  function PriceAtMost(bound: int): Property -> bool {
    (p: Property) => p.price <= bound as real
  }

  function TypeIs(t: string): Property -> bool {
    (p: Property) => p.propertyType == t
  }

  function HasAll(amenities: seq<string>): Property -> bool {
    (p: Property) => HasAmenities(p, amenities)
  }

  // ================================================================ listings and favourites

  function ListingIdIs(id: string): Property -> bool {
    (p: Property) => p.id == id
  }

  function ListingIdIsNot(id: string): Property -> bool {
    (p: Property) => p.id != id
  }

  function Always(p: Property): Property -> Property {
    (q: Property) => p
  }

  /** updateProperty's list: each listing with the new listing's id replaced by it. */
  function ReplaceListing(ps: seq<Property>, p: Property): (r: seq<Property>)
    ensures |r| == |ps|
    ensures forall i :: 0 <= i < |ps| ==> r[i].id == ps[i].id
    ensures forall i :: 0 <= i < |ps| ==> r[i] == (if ps[i].id == p.id then p else ps[i])
  {
    MapWhere(ps, ListingIdIs(p.id), Always(p))
  }

  /** Replacing twice is replacing once. */
  lemma ReplaceListingIdempotent(ps: seq<Property>, p: Property)
    ensures ReplaceListing(ReplaceListing(ps, p), p) == ReplaceListing(ps, p)
  {
    MapWhereIdempotent(ps, ListingIdIs(p.id), Always(p));
  }

  /** deleteProperty's list: every listing with the id dropped, the rest in order. */
  function RemoveListing(ps: seq<Property>, id: string): (r: seq<Property>)
    ensures forall i :: 0 <= i < |r| ==> r[i].id != id
    ensures forall i :: 0 <= i < |ps| && ps[i].id != id ==> ps[i] in r
    ensures IsSublist(r, ps)
    ensures forall q :: multiset(r)[q] == if q.id != id then multiset(ps)[q] else 0
  {
    FilterIsSublist(ps, ListingIdIsNot(id));
    FilterMultiset(ps, ListingIdIsNot(id));
    Filter(ps, ListingIdIsNot(id))
  }

  /** Deleting a listing just added, whose id was new, restores the list. */
  lemma AddThenRemoveListing(ps: seq<Property>, p: Property)
    requires forall i :: 0 <= i < |ps| ==> ps[i].id != p.id
    ensures RemoveListing([p] + ps, p.id) == ps
  {
    assert ([p] + ps)[1..] == ps;
    FilterKeepsAll(ps, ListingIdIsNot(p.id));
  }

  /** toggleFavorite's list: every copy of `id` removed if present, else `id` appended. */
  function Toggled(favorites: seq<string>, id: string): (r: seq<string>)
    ensures id in r <==> id !in favorites
    ensures forall x :: x != id ==> (x in r <==> x in favorites)
    ensures NoDuplicates(favorites) ==> NoDuplicates(r)
  {
    if id in favorites then
      FilterKeepsNoDuplicates(favorites, NotEquals(id));
      Filter(favorites, NotEquals(id))
    else
      favorites + [id]
  }

  /** Toggling twice restores membership of every id. */
  lemma ToggledTwice(favorites: seq<string>, id: string, x: string)
    ensures x in Toggled(Toggled(favorites, id), id) <==> x in favorites
  {
  }

  /** `ids.forEach(id => toggleFavorite(id))`, each toggle seeing the previous one's list. */
  function ToggleEach(favorites: seq<string>, ids: seq<string>): (r: seq<string>)
    ensures forall x :: x !in ids ==> (x in r <==> x in favorites)
    ensures NoDuplicates(favorites) ==> NoDuplicates(r)
    decreases |ids|
  {
    if ids == [] then favorites else ToggleEach(Toggled(favorites, ids[0]), ids[1..])
  }

  /** The first toggle of a suffix of the ids, taken on its own. */
  lemma ToggleEachStep(favorites: seq<string>, ids: seq<string>, i: int)
    requires 0 <= i < |ids|
    ensures ToggleEach(favorites, ids[i..]) == ToggleEach(Toggled(favorites, ids[i]), ids[i + 1..])
  {
    assert ids[i..][1..] == ids[i + 1..];
  }

  /** Toggling each favourite of a duplicate-free list once empties it. */
  lemma {:induction false} ToggleEachEmpties(favorites: seq<string>)
    requires NoDuplicates(favorites)
    ensures ToggleEach(favorites, favorites) == []
    decreases |favorites|
  {
    if favorites != [] {
      RemoveFirst(favorites);
      assert Toggled(favorites, favorites[0]) == favorites[1..];
      ToggleEachEmpties(favorites[1..]);
    }
  }

  /** With a repeated id the snapshot toggles it back in: ["a", "a"] ends as ["a"]. */
  lemma ToggleEachWithRepeat()
    ensures ToggleEach(["a", "a"], ["a", "a"]) == ["a"]
  {
    assert Toggled(["a", "a"], "a") == [];
    assert Toggled([], "a") == ["a"];
  }

  class PropertiesStore {
    var properties: seq<Property>
    var filteredProperties: seq<Property>
    var selectedProperty: Option<Property>
    var favorites: seq<string>

    constructor ()
      ensures properties == [] && filteredProperties == [] && selectedProperty == None && favorites == []
    {
      properties := [];
      filteredProperties := [];
      selectedProperty := None;
      favorites := [];
    }

    /** setProperties: the catalog and the filtered list both become `ps`. */
    method SetProperties(ps: seq<Property>)
      modifies this
      ensures properties == ps && filteredProperties == ps
      ensures selectedProperty == old(selectedProperty) && favorites == old(favorites)
    {
      properties := ps;
      filteredProperties := ps;
    }

    /** filterProperties: narrows a copy of the catalog criterion by criterion. */
    method FilterProperties(c: SearchCriteria)
      modifies this
      ensures filteredProperties == SearchFilter(properties, c)
      ensures properties == old(properties) && selectedProperty == old(selectedProperty)
      ensures favorites == old(favorites)
    {
      var filtered := properties;
      if Filled(c.city) {
        filtered := Filter(filtered, CityIs(c.city.value));
      }
      assert filtered == Chain(properties, c, 1);
      if Filled(c.university) {
        filtered := Filter(filtered, NearTo(c.university.value));
      }
      assert filtered == Chain(properties, c, 2);
      if c.minPrice.Some? {
        filtered := Filter(filtered, PriceAtLeast(c.minPrice.value));
      }
      assert filtered == Chain(properties, c, 3);
      if c.maxPrice.Some? {
        filtered := Filter(filtered, PriceAtMost(c.maxPrice.value));
      }
      assert filtered == Chain(properties, c, 4);
      if Filled(c.propertyType) {
        filtered := Filter(filtered, TypeIs(c.propertyType.value));
      }
      assert filtered == Chain(properties, c, 5);
      if AmenitiesGiven(c) {
        filtered := Filter(filtered, HasAll(c.amenities.value));
      }
      assert filtered == Chain(properties, c, 6);
      ChainIsSearch(properties, c);
      filteredProperties := filtered;
    }

    /** selectProperty. */
    method SelectProperty(p: Option<Property>)
      modifies this
      ensures selectedProperty == p
      ensures properties == old(properties) && filteredProperties == old(filteredProperties)
      ensures favorites == old(favorites)
    {
      selectedProperty := p;
    }

    /** toggleFavorite. */
    method ToggleFavorite(id: string)
      modifies this
      ensures favorites == Toggled(old(favorites), id)
      ensures properties == old(properties) && filteredProperties == old(filteredProperties)
      ensures selectedProperty == old(selectedProperty)
    {
      if id in favorites {
        favorites := Filter(favorites, NotEquals(id));
      } else {
        favorites := favorites + [id];
      }
    }

    /** The favourites page's "remove all": toggles every id of a snapshot of the list. */
    method RemoveAllFavorites()
      modifies this
      ensures favorites == ToggleEach(old(favorites), old(favorites))
      ensures NoDuplicates(old(favorites)) ==> favorites == []
      ensures properties == old(properties) && filteredProperties == old(filteredProperties)
      ensures selectedProperty == old(selectedProperty)
    {
      var snapshot := favorites;
      var i := 0;
      while i < |snapshot|
        invariant 0 <= i <= |snapshot|
        invariant ToggleEach(favorites, snapshot[i..]) == ToggleEach(snapshot, snapshot)
        invariant properties == old(properties) && filteredProperties == old(filteredProperties)
        invariant selectedProperty == old(selectedProperty)
      {
        ToggleEachStep(favorites, snapshot, i);
        ToggleFavorite(snapshot[i]);
        i := i + 1;
      }
      if NoDuplicates(snapshot) {
        ToggleEachEmpties(snapshot);
      }
    }

    /** addProperty: the new listing goes first. */
    method AddProperty(p: Property)
      modifies this
      ensures properties == [p] + old(properties)
      ensures filteredProperties == old(filteredProperties) && selectedProperty == old(selectedProperty)
      ensures favorites == old(favorites)
    {
      properties := [p] + properties;
    }

    /** updateProperty. */
    method UpdateProperty(p: Property)
      modifies this
      ensures properties == ReplaceListing(old(properties), p)
      ensures filteredProperties == old(filteredProperties) && selectedProperty == old(selectedProperty)
      ensures favorites == old(favorites)
    {
      properties := MapWhere(properties, ListingIdIs(p.id), Always(p));
    }

    /** deleteProperty. */
    method DeleteProperty(id: string)
      modifies this
      ensures properties == RemoveListing(old(properties), id)
      ensures filteredProperties == old(filteredProperties) && selectedProperty == old(selectedProperty)
      ensures favorites == old(favorites)
    {
      properties := Filter(properties, ListingIdIsNot(id));
    }
  }

  // ================================================================ onboarding

  /** `Partial<MatchingCriteria>`: the fields a call supplies. */
  datatype CriteriaPatch = CriteriaPatch(
    university: Option<string>,
    budget: Option<real>,
    propertyType: Option<string>,
    preferences: Option<seq<string>>,
    additionalNotes: Option<string>)

  const EmptyPatch := CriteriaPatch(None, None, None, None, None)

  /** `{ ...criteria, ...patch }`: the supplied fields win. */
  function ApplyPatch(c: MatchingCriteria, patch: CriteriaPatch): (r: MatchingCriteria)
    ensures patch.university.Some? ==> r.university == patch.university.value
    ensures patch.university.None? ==> r.university == c.university
    ensures patch.budget.Some? ==> r.budget == patch.budget.value
    ensures patch.budget.None? ==> r.budget == c.budget
    ensures patch.propertyType.Some? ==> r.propertyType == patch.propertyType.value
    ensures patch.propertyType.None? ==> r.propertyType == c.propertyType
    ensures patch.preferences.Some? ==> r.preferences == patch.preferences.value
    ensures patch.preferences.None? ==> r.preferences == c.preferences
    ensures patch.additionalNotes.Some? ==> r.additionalNotes == patch.additionalNotes
    ensures patch.additionalNotes.None? ==> r.additionalNotes == c.additionalNotes
  {
    MatchingCriteria(
      patch.university.GetOr(c.university),
      patch.budget.GetOr(c.budget),
      patch.propertyType.GetOr(c.propertyType),
      patch.preferences.GetOr(c.preferences),
      if patch.additionalNotes.Some? then patch.additionalNotes else c.additionalNotes)
  }

  function Later<T>(first: Option<T>, second: Option<T>): Option<T> {
    if second.Some? then second else first
  }

  /** Two patches in a row: the second's fields over the first's. */
  function ThenPatch(first: CriteriaPatch, second: CriteriaPatch): CriteriaPatch {
    CriteriaPatch(
      Later(first.university, second.university),
      Later(first.budget, second.budget),
      Later(first.propertyType, second.propertyType),
      Later(first.preferences, second.preferences),
      Later(first.additionalNotes, second.additionalNotes))
  }

  /** Applying two patches is applying their merge; an empty patch and a repeated patch
      change nothing. */
  lemma PatchesCompose(c: MatchingCriteria, first: CriteriaPatch, second: CriteriaPatch)
    ensures ApplyPatch(ApplyPatch(c, first), second) == ApplyPatch(c, ThenPatch(first, second))
    ensures ApplyPatch(c, EmptyPatch) == c
    ensures ApplyPatch(ApplyPatch(c, first), first) == ApplyPatch(c, first)
  {
  }

  /** defaultCriteria. */
  const DefaultCriteria := MatchingCriteria("", 1500.0, "shared_bed", [], Some(""))

  class OnboardingStore {
    var step: int
    var criteria: MatchingCriteria
    var matches: seq<Property>
    var isComplete: bool

    constructor ()
      ensures step == 1 && criteria == DefaultCriteria && matches == [] && !isComplete
    {
      step := 1;
      criteria := DefaultCriteria;
      matches := [];
      isComplete := false;
    }

    /** setStep. */
    method SetStep(s: int)
      modifies this
      ensures step == s
      ensures criteria == old(criteria) && matches == old(matches) && isComplete == old(isComplete)
    {
      step := s;
    }

    /** setCriteria: merges the supplied fields into the criteria. */
    method SetCriteria(patch: CriteriaPatch)
      modifies this
      ensures criteria == ApplyPatch(old(criteria), patch)
      ensures step == old(step) && matches == old(matches) && isComplete == old(isComplete)
    {
      criteria := ApplyPatch(criteria, patch);
    }

    /** setMatches. */
    method SetMatches(ms: seq<Property>)
      modifies this
      ensures matches == ms
      ensures step == old(step) && criteria == old(criteria) && isComplete == old(isComplete)
    {
      matches := ms;
    }

    /** completeOnboarding. */
    method CompleteOnboarding()
      modifies this
      ensures isComplete
      ensures step == old(step) && criteria == old(criteria) && matches == old(matches)
    {
      isComplete := true;
    }

    /** reset: back to the initial state. */
    method Reset()
      modifies this
      ensures step == 1 && criteria == DefaultCriteria && matches == [] && !isComplete
    {
      step := 1;
      criteria := DefaultCriteria;
      matches := [];
      isComplete := false;
    }
  }

  // ================================================================ messages

  function MessageIdIs(id: string): Message -> bool {
    (m: Message) => m.id == id
  }

  function MarkRead(): Message -> Message {
    (m: Message) => m.(read := true)
  }

  /** markAsRead's list: the messages with the id marked read, nothing else changed. */
  function MarkedRead(ms: seq<Message>, id: string): (r: seq<Message>)
    ensures |r| == |ms|
    ensures forall i :: 0 <= i < |ms| && ms[i].id == id ==> r[i] == ms[i].(read := true)
    ensures forall i :: 0 <= i < |ms| && ms[i].id != id ==> r[i] == ms[i]
  {
    MapWhere(ms, MessageIdIs(id), MarkRead())
  }

  /** Marking a message read twice is marking it once. */
  lemma MarkedReadIdempotent(ms: seq<Message>, id: string)
    ensures MarkedRead(MarkedRead(ms, id), id) == MarkedRead(ms, id)
  {
    MapWhereIdempotent(ms, MessageIdIs(id), MarkRead());
  }

  class MessagesStore {
    var messages: seq<Message>
    var activeConversation: Option<string>

    constructor ()
      ensures messages == [] && activeConversation == None
    {
      messages := [];
      activeConversation := None;
    }

    /** setMessages. */
    method SetMessages(ms: seq<Message>)
      modifies this
      ensures messages == ms && activeConversation == old(activeConversation)
    {
      messages := ms;
    }

    /** addMessage: the new message goes last. */
    method AddMessage(m: Message)
      modifies this
      ensures messages == old(messages) + [m] && activeConversation == old(activeConversation)
    {
      messages := messages + [m];
    }

    /** setActiveConversation. */
    method SetActiveConversation(userId: Option<string>)
      modifies this
      ensures activeConversation == userId && messages == old(messages)
    {
      activeConversation := userId;
    }

    /** markAsRead. */
    method MarkAsRead(id: string)
      modifies this
      ensures messages == MarkedRead(old(messages), id)
      ensures activeConversation == old(activeConversation)
    {
      messages := MapWhere(messages, MessageIdIs(id), MarkRead());
    }
  }

  // ================================================================ bookings

  function BookingIdIs(id: string): Booking -> bool {
    (b: Booking) => b.id == id
  }

  function AlwaysBooking(b: Booking): Booking -> Booking {
    (x: Booking) => b
  }

  function Cancel(): Booking -> Booking {
    (b: Booking) => b.(status := Cancelled)
  }

  /** updateBooking's list. */
  function ReplaceBooking(bs: seq<Booking>, b: Booking): (r: seq<Booking>)
    ensures |r| == |bs|
    ensures forall i :: 0 <= i < |bs| ==> r[i].id == bs[i].id
    ensures forall i :: 0 <= i < |bs| ==> r[i] == (if bs[i].id == b.id then b else bs[i])
  {
    MapWhere(bs, BookingIdIs(b.id), AlwaysBooking(b))
  }

  /** cancelBooking's list: the bookings with the id cancelled, nothing else changed. */
  function CancelledIn(bs: seq<Booking>, id: string): (r: seq<Booking>)
    ensures |r| == |bs|
    ensures forall i :: 0 <= i < |bs| && bs[i].id == id ==>
              r[i].status == Cancelled && r[i] == bs[i].(status := Cancelled)
    ensures forall i :: 0 <= i < |bs| && bs[i].id != id ==> r[i] == bs[i]
  {
    MapWhere(bs, BookingIdIs(id), Cancel())
  }

  /** Cancelling twice is cancelling once; updating twice is updating once. */
  lemma BookingUpdatesIdempotent(bs: seq<Booking>, id: string, b: Booking)
    ensures CancelledIn(CancelledIn(bs, id), id) == CancelledIn(bs, id)
    ensures ReplaceBooking(ReplaceBooking(bs, b), b) == ReplaceBooking(bs, b)
  {
    MapWhereIdempotent(bs, BookingIdIs(id), Cancel());
    MapWhereIdempotent(bs, BookingIdIs(b.id), AlwaysBooking(b));
  }

  class BookingsStore {
    var bookings: seq<Booking>

    constructor ()
      ensures bookings == []
    {
      bookings := [];
    }

    /** setBookings. */
    method SetBookings(bs: seq<Booking>)
      modifies this
      ensures bookings == bs
    {
      bookings := bs;
    }

    /** addBooking: the new booking goes first. */
    method AddBooking(b: Booking)
      modifies this
      ensures bookings == [b] + old(bookings)
    {
      bookings := [b] + bookings;
    }

    /** updateBooking. */
    method UpdateBooking(b: Booking)
      modifies this
      ensures bookings == ReplaceBooking(old(bookings), b)
    {
      bookings := MapWhere(bookings, BookingIdIs(b.id), AlwaysBooking(b));
    }

    /** cancelBooking. */
    method CancelBooking(id: string)
      modifies this
      ensures bookings == CancelledIn(old(bookings), id)
    {
      bookings := MapWhere(bookings, BookingIdIs(id), Cancel());
    }
  }

  // ================================================================ reviews

  function ForProperty(propertyId: string): Review -> bool {
    (r: Review) => r.propertyId == propertyId
  }

  function ForOwner(ownerId: string): Review -> bool {
    (r: Review) => r.ownerId == ownerId
  }

  /** getPropertyReviews: the property's reviews, newest first as stored. */
  function PropertyReviews(rs: seq<Review>, propertyId: string): (r: seq<Review>)
    ensures IsSublist(r, rs)
    ensures forall i :: 0 <= i < |r| ==> r[i].propertyId == propertyId
    ensures forall i :: 0 <= i < |rs| && rs[i].propertyId == propertyId ==> rs[i] in r
    ensures forall x :: multiset(r)[x] == if x.propertyId == propertyId then multiset(rs)[x] else 0
  {
    FilterIsSublist(rs, ForProperty(propertyId));
    FilterMultiset(rs, ForProperty(propertyId));
    Filter(rs, ForProperty(propertyId))
  }

  /** getOwnerReviews: the owner's reviews, by the review's own owner id. */
  function OwnerReviews(rs: seq<Review>, ownerId: string): (r: seq<Review>)
    ensures IsSublist(r, rs)
    ensures forall i :: 0 <= i < |r| ==> r[i].ownerId == ownerId
    ensures forall i :: 0 <= i < |rs| && rs[i].ownerId == ownerId ==> rs[i] in r
    ensures forall x :: multiset(r)[x] == if x.ownerId == ownerId then multiset(rs)[x] else 0
  {
    FilterIsSublist(rs, ForOwner(ownerId));
    FilterMultiset(rs, ForOwner(ownerId));
    Filter(rs, ForOwner(ownerId))
  }

  /** A review just added heads its property's and its owner's lists; other lists
      are unaffected. */
  lemma AddedReviewListedFirst(rs: seq<Review>, r: Review, propertyId: string, ownerId: string)
    ensures PropertyReviews([r] + rs, r.propertyId) == [r] + PropertyReviews(rs, r.propertyId)
    ensures OwnerReviews([r] + rs, r.ownerId) == [r] + OwnerReviews(rs, r.ownerId)
    ensures propertyId != r.propertyId ==> PropertyReviews([r] + rs, propertyId) == PropertyReviews(rs, propertyId)
    ensures ownerId != r.ownerId ==> OwnerReviews([r] + rs, ownerId) == OwnerReviews(rs, ownerId)
  {
    FilterCons(rs, r, ForProperty(r.propertyId));
    FilterCons(rs, r, ForOwner(r.ownerId));
    FilterCons(rs, r, ForProperty(propertyId));
    FilterCons(rs, r, ForOwner(ownerId));
  }

  class ReviewsStore {
    var reviews: seq<Review>

    constructor ()
      ensures reviews == []
    {
      reviews := [];
    }

    /** setReviews. */
    method SetReviews(rs: seq<Review>)
      modifies this
      ensures reviews == rs
    {
      reviews := rs;
    }

    /** addReview: the new review goes first. */
    method AddReview(r: Review)
      modifies this
      ensures reviews == [r] + old(reviews)
    {
      reviews := [r] + reviews;
    }

    /** getPropertyReviews on the current state. */
    function GetPropertyReviews(propertyId: string): (r: seq<Review>)
      reads this
      ensures forall i :: 0 <= i < |r| ==> r[i].propertyId == propertyId && r[i] in reviews
      ensures r == PropertyReviews(reviews, propertyId)
    {
      PropertyReviews(reviews, propertyId)
    }

    /** getOwnerReviews on the current state. */
    function GetOwnerReviews(ownerId: string): (r: seq<Review>)
      reads this
      ensures forall i :: 0 <= i < |r| ==> r[i].ownerId == ownerId && r[i] in reviews
      ensures r == OwnerReviews(reviews, ownerId)
    {
      OwnerReviews(reviews, ownerId)
    }
  }
}
