/** The owner's listings page (src/sections/OwnerProperties.tsx): the signed-in owner's
    listings, the booking counters shown on each listing card, the pending-visits card,
    and the search over title and location. Loading seed data into empty stores is not
    modelled. */
module OwnerListings {
  import opened Wrappers
  import opened Seqs
  import opened Text
  import opened Types

  /** The owner id used when no one is signed in. */
  const FallbackOwner := "owner-001"

  /** `user?.id || 'owner-001'`: an empty id falls back too. */
  function OwnerOf(user: Option<User>): (owner: string)
    ensures user.Some? && user.value.id != "" ==> owner == user.value.id
    ensures user.None? || user.value.id == "" ==> owner == FallbackOwner
    ensures owner != ""
  {
    if user.Some? && user.value.id != "" then user.value.id else FallbackOwner
  }

  function OwnedBy(owner: string): Property -> bool {
    (p: Property) => p.ownerId == owner
  }

  /** ownerProperties: the listings of the signed-in owner, in catalog order. */
  function OwnerProperties(ps: seq<Property>, user: Option<User>): (r: seq<Property>)
    ensures IsSublist(r, ps)
    ensures forall i :: 0 <= i < |r| ==> r[i].ownerId == OwnerOf(user)
    ensures forall i :: 0 <= i < |ps| && ps[i].ownerId == OwnerOf(user) ==> ps[i] in r
    ensures forall q :: multiset(r)[q] == if q.ownerId == OwnerOf(user) then multiset(ps)[q] else 0
  {
    FilterIsSublist(ps, OwnedBy(OwnerOf(user)));
    FilterMultiset(ps, OwnedBy(OwnerOf(user)));
    Filter(ps, OwnedBy(OwnerOf(user)))
  }

  // ---------------------------------------------------------------- booking counters

  function BookingFor(propertyId: string): Booking -> bool {
    (b: Booking) => b.propertyId == propertyId
  }

  function HasStatus(status: BookingStatus): Booking -> bool {
    (b: Booking) => b.status == status
  }

  function PendingFor(propertyId: string): Booking -> bool {
    (b: Booking) => b.status == Pending && b.propertyId == propertyId
  }

  datatype PropertyStats = PropertyStats(totalBookings: nat, pendingBookings: nat, confirmedBookings: nat)

  /** getPropertyStats: the listing's bookings, and among them the pending and the
      confirmed ones. A booking has one status, so the two never add up to more than the
      total. */
  function PropertyStatsOf(bookings: seq<Booking>, propertyId: string): (s: PropertyStats)
    ensures s.totalBookings == |Filter(bookings, BookingFor(propertyId))|
    ensures s.pendingBookings == Count(bookings, PendingFor(propertyId))
    ensures s.confirmedBookings == Count(Filter(bookings, BookingFor(propertyId)), HasStatus(Confirmed))
    ensures s.pendingBookings + s.confirmedBookings <= s.totalBookings
  {
    var own := Filter(bookings, BookingFor(propertyId));
    FilterTwice(bookings, BookingFor(propertyId), HasStatus(Pending), PendingFor(propertyId));
    DisjointCounts(own, HasStatus(Pending), HasStatus(Confirmed));
    PropertyStats(|own|, Count(own, HasStatus(Pending)), Count(own, HasStatus(Confirmed)))
  }

  /** Two tests no element passes together select at most the whole list between them. */
  lemma {:induction false} DisjointCounts<T>(s: seq<T>, f: T -> bool, g: T -> bool)
    requires forall x :: !(f(x) && g(x))
    ensures Count(s, f) + Count(s, g) <= |s|
    decreases |s|
  {
    if s != [] {
      DisjointCounts(s[1..], f, g);
    }
  }

  /** Counting by the union of two disjoint tests adds the two counts. */
  lemma {:induction false} CountUnion<T>(s: seq<T>, f: T -> bool, g: T -> bool, h: T -> bool)
    requires forall x :: h(x) == (f(x) || g(x))
    requires forall x :: !(f(x) && g(x))
    ensures Count(s, h) == Count(s, f) + Count(s, g)
    decreases |s|
  {
    if s != [] {
      CountUnion(s[1..], f, g, h);
    }
  }

  // ---------------------------------------------------------------- the pending card

  /** `ownerProperties.some(p => p.id === id)`. */
  predicate Lists(owned: seq<Property>, id: string) {
    exists i :: 0 <= i < |owned| && owned[i].id == id
  }

  function PendingInListings(owned: seq<Property>): Booking -> bool {
    (b: Booking) => b.status == Pending && Lists(owned, b.propertyId)
  }

  /** The pending-visits card: pending bookings of any of the owner's listings. */
  function PendingCard(bookings: seq<Booking>, owned: seq<Property>): (n: nat)
    ensures n <= |bookings|
    ensures (forall i :: 0 <= i < |bookings| ==> bookings[i].status != Pending) ==> n == 0
  {
    FilterEmptyWhenNonePass(bookings, PendingInListings(owned));
    Count(bookings, PendingInListings(owned))
  }

  /** No two of the owner's listings share an id. */
  predicate DistinctIds(owned: seq<Property>) {
    forall i, j :: 0 <= i < j < |owned| ==> owned[i].id != owned[j].id
  }

  /** The pending bookings the listing cards show, added over the owner's listings. */
  function PendingOnCards(bookings: seq<Booking>, owned: seq<Property>): nat
    decreases |owned|
  {
    if owned == [] then 0
    else PendingOnCards(bookings, owned[..|owned| - 1]) +
         PropertyStatsOf(bookings, owned[|owned| - 1].id).pendingBookings
  }

  /** When the owner's listings have distinct ids, the pending card is the sum of the
      pending counters on the listing cards. */
  lemma {:induction false} PendingCardSumsTheCards(bookings: seq<Booking>, owned: seq<Property>)
    requires DistinctIds(owned)
    ensures PendingCard(bookings, owned) == PendingOnCards(bookings, owned)
    decreases |owned|
  {
    if owned == [] {
      FilterNone(bookings, PendingInListings(owned));
    } else {
      var front, last := owned[..|owned| - 1], owned[|owned| - 1];
      assert DistinctIds(front) by {
        assert forall i :: 0 <= i < |front| ==> front[i] == owned[i];
      }
      PendingCardSumsTheCards(bookings, front);
      LastListingSplits(owned);
      assert forall x: Booking :: !(PendingInListings(front)(x) && PendingFor(last.id)(x));
      CountUnion(bookings, PendingInListings(front), PendingFor(last.id), PendingInListings(owned));
    }
  }

  /** A pending booking of some listing is one of an earlier listing or of the last one,
      and with distinct ids never both. */
  lemma LastListingSplits(owned: seq<Property>)
    requires owned != [] && DistinctIds(owned)
    ensures forall x: Booking :: PendingInListings(owned)(x) ==
              (PendingInListings(owned[..|owned| - 1])(x) || PendingFor(owned[|owned| - 1].id)(x))
    ensures forall x: Booking :: Lists(owned[..|owned| - 1], x.propertyId) ==> x.propertyId != owned[|owned| - 1].id
  {
    var front, last := owned[..|owned| - 1], owned[|owned| - 1];
    forall x: Booking
      ensures Lists(owned, x.propertyId) == (Lists(front, x.propertyId) || x.propertyId == last.id)
      ensures !(Lists(front, x.propertyId) && x.propertyId == last.id)
    {
      if Lists(owned, x.propertyId) && x.propertyId != last.id {
        var i :| 0 <= i < |owned| && owned[i].id == x.propertyId;
        assert i < |front| && front[i] == owned[i];
      }
      if Lists(front, x.propertyId) {
        var i :| 0 <= i < |front| && front[i].id == x.propertyId;
        assert owned[i] == front[i];
      }
      assert owned[|owned| - 1] == last;
    }
  }

  // ---------------------------------------------------------------- search

  predicate TitleOrLocation(p: Property, term: string) {
    Contains(p.title, term) || Contains(p.location, term)
  }

  function Mentions(term: string): Property -> bool {
    (p: Property) => TitleOrLocation(p, term)
  }

  /** The search box: the owner's listings whose title or location contains the term, in
      order. */
  function SearchOwned(owned: seq<Property>, term: string): (r: seq<Property>)
    ensures IsSublist(r, owned)
    ensures forall i :: 0 <= i < |r| ==> TitleOrLocation(r[i], term)
    ensures forall i :: 0 <= i < |owned| && TitleOrLocation(owned[i], term) ==> owned[i] in r
    ensures forall q :: multiset(r)[q] == if TitleOrLocation(q, term) then multiset(owned)[q] else 0
  {
    FilterIsSublist(owned, Mentions(term));
    FilterMultiset(owned, Mentions(term));
    Filter(owned, Mentions(term))
  }

  /** An empty search term lists every listing. */
  lemma EmptySearchKeepsAll(owned: seq<Property>)
    ensures SearchOwned(owned, "") == owned
  {
    forall i | 0 <= i < |owned|
      ensures Mentions("")(owned[i])
    {
      ContainsEmpty(owned[i].title);
    }
    FilterKeepsAll(owned, Mentions(""));
  }
}
