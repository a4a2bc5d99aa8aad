/** The records, enumerations and constant tables of the platform (src/types/index.ts).
    Dates are left out except where the core compares them (a message's `createdAt`,
    kept as a millisecond timestamp). Fields the core never reads are left out too. */
module Types {
  import opened Wrappers

  datatype UserRole = Owner | Expat

  datatype User = User(id: string, email: string, name: string, role: UserRole)

  /** The three housing types. Records carry the type as its string id, because the
      forms write it there through untyped casts. */
  datatype PropertyType = SharedBed | PrivateRoom | FullApartment {
    function Id(): string {
      match this
      case SharedBed => "shared_bed"
      case PrivateRoom => "private_room"
      case FullApartment => "full_apartment"
    }
  }

  const PropertyTypeIds: seq<string> := ["shared_bed", "private_room", "full_apartment"]

  /** The string ids and the enumeration are in one-to-one correspondence. */
  lemma PropertyTypeIdsAreTheEnum()
    ensures forall t: PropertyType :: t.Id() in PropertyTypeIds
    ensures forall t: PropertyType, u: PropertyType :: t.Id() == u.Id() ==> t == u
    ensures forall s :: s in PropertyTypeIds ==> exists t: PropertyType :: t.Id() == s
    ensures |PropertyTypeIds| == 3
  {
    assert SharedBed.Id() == PropertyTypeIds[0];
    assert PrivateRoom.Id() == PropertyTypeIds[1];
    assert FullApartment.Id() == PropertyTypeIds[2];
  }

  datatype PriceType = PerBed | PerRoom | PerApartment

  datatype BookingStatus = Pending | Confirmed | Cancelled | Completed | Visited

  datatype OwnerBadge = New | Verified | Trusted | Flagged

  datatype Coordinates = Coordinates(lat: real, lng: real)

  datatype OwnerStats = OwnerStats(
    id: string,
    ownerId: string,
    totalReviews: int,
    averageTrustScore: real,
    photosAccuracy: real,
    descriptionAccuracy: real,
    amenitiesMatch: real,
    safetyAccuracy: real,
    overallRating: real,
    badge: OwnerBadge)

  /** A listing. `coordinates` and `ownerStats` are optional, as in the source. */
  datatype Property = Property(
    id: string,
    title: string,
    description: string,
    price: real,
    priceType: PriceType,
    location: string,
    city: string,
    coordinates: Option<Coordinates>,
    nearTo: seq<string>,
    propertyType: string,
    rooms: int,
    beds: int,
    bathrooms: int,
    amenities: seq<string>,
    images: seq<string>,
    verified: bool,
    featured: bool,
    available: bool,
    ownerId: string,
    ownerStats: Option<OwnerStats>)

  /** A post-visit review. `trustScore` is declared as always present; it is optional here
      because the reports read it through `r.trustScore || 0`. */
  datatype Review = Review(
    id: string,
    bookingId: string,
    propertyId: string,
    reviewerId: string,
    ownerId: string,
    photosAccuracy: int,
    descriptionAccuracy: int,
    amenitiesMatch: int,
    safetyAccuracy: int,
    overallRating: int,
    wouldRecommend: bool,
    comment: Option<string>,
    visitPhotos: seq<string>,
    trustScore: Option<real>)

  datatype Booking = Booking(
    id: string,
    propertyId: string,
    expatId: string,
    status: BookingStatus,
    notes: Option<string>)

  datatype Message = Message(
    id: string,
    content: string,
    senderId: string,
    receiverId: string,
    propertyId: string,
    createdAt: int,
    read: bool)

  /** The search panel's criteria; every field optional. */
  datatype SearchCriteria = SearchCriteria(
    city: Option<string>,
    university: Option<string>,
    minPrice: Option<int>,
    maxPrice: Option<int>,
    propertyType: Option<string>,
    amenities: Option<seq<string>>,
    maxDistance: Option<real>)

  const NoSearchCriteria := SearchCriteria(None, None, None, None, None, None, None)

  /** The matcher's criteria: university, budget, type and preferences are always there. */
  datatype MatchingCriteria = MatchingCriteria(
    university: string,
    budget: real,
    propertyType: string,
    preferences: seq<string>,
    additionalNotes: Option<string>)

  /** JavaScript truthiness of an optional string: present and not empty. */
  predicate Filled(s: Option<string>) {
    s.Some? && s.value != ""
  }

  datatype University = University(id: string, name: string, nameEn: string, city: string)

  const SupportedUniversities: seq<University> := [
    University("cairo", "جامعة القاهرة", "Cairo University", "القاهرة"),
    University("ain_shams", "جامعة عين شمس", "Ain Shams University", "القاهرة"),
    University("auc", "الجامعة الأمريكية", "AUC", "القاهرة"),
    University("alexandria", "جامعة الإسكندرية", "Alexandria University", "الإسكندرية"),
    University("mansoura", "جامعة المنصورة", "Mansoura University", "المنصورة"),
    University("tanta", "جامعة طنطا", "Tanta University", "طنطا"),
    University("assiut", "جامعة أسيوط", "Assiut University", "أسيوط"),
    University("qena", "جامعة قنا", "Qena University", "قنا"),
    University("sohag", "جامعة سوهاج", "Sohag University", "سوهاج"),
    University("zagazig", "جامعة الزقازيق", "Zagazig University", "الزقازيق")
  ]

  const SupportedCities: seq<string> := [
    "القاهرة", "الإسكندرية", "المنصورة", "طنطا", "أسيوط", "قنا", "سوهاج", "الزقازيق"
  ]

  datatype Labelled = Labelled(id: string, name: string, extra: string)

  /** PROPERTY_TYPES: id, Arabic name, English name. */
  const PropertyTypeTable: seq<Labelled> := [
    Labelled("shared_bed", "سرير في غرفة مشتركة", "Bed in Shared Room"),
    Labelled("private_room", "غرفة خاصة", "Private Room"),
    Labelled("full_apartment", "شقة كاملة", "Full Apartment")
  ]

  /** AMENITIES: id, display name, icon. */
  const AmenityTable: seq<Labelled> := [
    Labelled("wifi", "WiFi", "Wifi"),
    Labelled("ac", "تكييف", "Wind"),
    Labelled("kitchen", "مطبخ", "ChefHat"),
    Labelled("laundry", "غسالة", "WashingMachine"),
    Labelled("security", "أمان", "Shield"),
    Labelled("elevator", "أسانسير", "ArrowUpDown"),
    Labelled("parking", "جراج", "Car"),
    Labelled("gym", "جيم", "Dumbbell")
  ]

  /** SEARCH_PRIORITIES: id, display name, icon. */
  const SearchPriorityTable: seq<Labelled> := [
    Labelled("near_university", "قرب الجامعة", "MapPin"),
    Labelled("cheap_price", "سعر رخيص", "Banknote"),
    Labelled("safety", "أمان", "Shield"),
    Labelled("quiet", "هدوء", "VolumeX"),
    Labelled("strong_wifi", "WiFi قوي", "Wifi"),
    Labelled("furnished", "مفروش", "Sofa")
  ]

  function Ids(table: seq<Labelled>): (r: seq<string>)
    ensures |r| == |table| && forall i :: 0 <= i < |table| ==> r[i] == table[i].id
  {
    if table == [] then [] else [table[0].id] + Ids(table[1..])
  }

  /** Every university lies in one of the supported cities. */
  lemma UniversityCitiesSupported()
    ensures forall u :: u in SupportedUniversities ==> u.city in SupportedCities
  {
  }

  /** The type table lists the three enumeration ids, in the enumeration's order. */
  lemma PropertyTypeTableMatchesEnum()
    ensures Ids(PropertyTypeTable) == PropertyTypeIds
  {
  }
}
