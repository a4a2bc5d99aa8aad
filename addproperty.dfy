/** The owner's add-listing wizard (src/sections/OwnerAddProperty.tsx): four steps (basic
    information, price and details, amenities, images) over a form record, and the
    listing built from the form on submit. The simulated 1.5 s delay and the
    `isSubmitting` flag around it are not modelled; submitting adds the listing at once. */
module AddProperty {
  import opened Wrappers
  import opened Seqs
  import opened Text
  import opened Types
  import opened Matcher
  import opened Store
  import opened OwnerListings

  /** The wizard's `formData`. */
  datatype FormData = FormData(
    title: string,
    description: string,
    price: real,
    priceType: PriceType,
    city: string,
    location: string,
    propertyType: string,
    rooms: int,
    beds: int,
    bathrooms: int,
    amenities: seq<string>,
    nearTo: seq<string>,
    images: seq<string>)

  /** The form as the page opens it. */
  const InitialForm := FormData("", "", 1000.0, PerBed, "", "", "shared_bed", 1, 1, 1, [], [], [])

  const LastStep := 4

  /** The picture a listing gets when the owner uploaded none. */
  const PlaceholderImage := "https://images.unsplash.com/photo-1522708323590-d24dbb6b0267?w=800"

  /** canProceed: the gate on the Next button. */
  function CanProceed(step: int, form: FormData): (ok: bool)
    ensures step == 1 ==>
              (ok <==> form.title != "" && form.description != "" && form.city != "" && form.location != "")
    ensures step == 2 ==> (ok <==> form.price > 0.0 && form.propertyType != "")
    ensures step == 3 || step == 4 ==> ok
    ensures !(1 <= step <= 4) ==> !ok
  {
    match step
    case 1 => form.title != "" && form.description != "" && form.city != "" && form.location != ""
    case 2 => form.price > 0.0 && form.propertyType != ""
    case 3 => true
    case 4 => true
    case _ => false
  }

  /** The blank form is held at step 1 until the basic information is filled in; its
      default price and type already let step 2 through. */
  lemma InitialFormGates()
    ensures !CanProceed(1, InitialForm)
    ensures CanProceed(2, InitialForm)
  {
  }

  /** The listing handleSubmit builds: the form's fields, unverified, not featured,
      available, without coordinates or owner statistics, owned by the signed-in user,
      with the placeholder picture when the form has none. Having no coordinates, it
      scores the neutral 50 on distance for every university. */
  function NewListing(id: string, form: FormData, user: Option<User>): (p: Property)
    ensures p.id == id
    ensures p.title == form.title && p.description == form.description
    ensures p.price == form.price && p.priceType == form.priceType
    ensures p.city == form.city && p.location == form.location && p.propertyType == form.propertyType
    ensures p.rooms == form.rooms && p.beds == form.beds && p.bathrooms == form.bathrooms
    ensures p.amenities == form.amenities && p.nearTo == form.nearTo
    ensures !p.verified && !p.featured && p.available
    ensures p.coordinates.None? && p.ownerStats.None?
    ensures p.ownerId == OwnerOf(user)
    ensures |form.images| > 0 ==> p.images == form.images
    ensures |form.images| == 0 ==> p.images == [PlaceholderImage]
    ensures forall university: string, haversine: (Coordinates, Coordinates) -> real ::
              DistanceScore(p, university, haversine) == 50.0
  {
    Property(
      id, form.title, form.description, form.price, form.priceType, form.location, form.city,
      None, form.nearTo, form.propertyType, form.rooms, form.beds, form.bathrooms,
      form.amenities, if |form.images| > 0 then form.images else [PlaceholderImage],
      false, false, true, OwnerOf(user), None)
  }

  /** `'prop-' + Date.now()`, with the clock reading passed in. */
  function ListingId(now: nat): (id: string)
    ensures "prop-" <= id && |id| > 5
    ensures Number(id[5..]) == Some(now)
  {
    NumberShowNat(now);
    var id := "prop-" + ShowNat(now);
    assert id[5..] == ShowNat(now);
    id
  }

  /** A submitted listing is always shown with at least one picture. */
  lemma NewListingHasPicture(id: string, form: FormData, user: Option<User>)
    ensures |NewListing(id, form, user).images| >= 1
    ensures NewListing(id, form, user).images[0] == if form.images == [] then PlaceholderImage else form.images[0]
  {
  }

  /** A listing built from a form is found by a search on the form's own city, type and
      amenities. */
  lemma NewListingFoundByItsForm(id: string, form: FormData, user: Option<User>)
    ensures SearchMatches(NewListing(id, form, user),
                          SearchCriteria(Some(form.city), None, None, None, Some(form.propertyType),
                                         Some(form.amenities), None))
  {
  }

  class AddPropertyWizard {
    var step: int
    var form: FormData

    /** The step is one of the four pages. */
    predicate Valid()
      reads this
    {
      1 <= step <= LastStep
    }

    constructor ()
      ensures step == 1 && form == InitialForm && Valid()
    {
      step := 1;
      form := InitialForm;
    }

    /** Back: `max(1, s - 1)`, and disabled at step 1. */
    method ClickBack()
      requires Valid()
      modifies this
      ensures Valid()
      ensures step == if old(step) == 1 then 1 else old(step) - 1
      ensures form == old(form)
    {
      if step != 1 {
        step := if step - 1 < 1 then 1 else step - 1;
      }
    }

    /** Next: shown below the last step, disabled unless canProceed, `min(4, s + 1)`. */
    method ClickNext()
      requires Valid() && step < LastStep
      modifies this
      ensures Valid()
      ensures old(CanProceed(step, form)) ==> step == old(step) + 1
      ensures !old(CanProceed(step, form)) ==> step == old(step)
      ensures form == old(form)
    {
      if CanProceed(step, form) {
        step := if step + 1 > LastStep then LastStep else step + 1;
      }
    }

    /** handleAmenityToggle: flips one amenity and leaves every other field alone. */
    method ToggleAmenity(amenity: string)
      modifies this
      ensures form == old(form).(amenities := Toggled(old(form).amenities, amenity))
      ensures amenity in form.amenities <==> amenity !in old(form).amenities
      ensures step == old(step)
    {
      form := form.(amenities := Toggled(form.amenities, amenity));
    }

    method SetTitle(title: string)
      modifies this
      ensures form == old(form).(title := title) && step == old(step)
    {
      form := form.(title := title);
    }

    method SetDescription(description: string)
      modifies this
      ensures form == old(form).(description := description) && step == old(step)
    {
      form := form.(description := description);
    }

    method SetCity(city: string)
      modifies this
      ensures form == old(form).(city := city) && step == old(step)
    {
      form := form.(city := city);
    }

    method SetLocation(location: string)
      modifies this
      ensures form == old(form).(location := location) && step == old(step)
    {
      form := form.(location := location);
    }

    method SetPrice(price: real)
      modifies this
      ensures form == old(form).(price := price) && step == old(step)
    {
      form := form.(price := price);
    }

    method SetPriceType(priceType: PriceType)
      modifies this
      ensures form == old(form).(priceType := priceType) && step == old(step)
    {
      form := form.(priceType := priceType);
    }

    method SetType(propertyType: string)
      modifies this
      ensures form == old(form).(propertyType := propertyType) && step == old(step)
    {
      form := form.(propertyType := propertyType);
    }

    method SetRooms(rooms: int)
      modifies this
      ensures form == old(form).(rooms := rooms) && step == old(step)
    {
      form := form.(rooms := rooms);
    }

    method SetBeds(beds: int)
      modifies this
      ensures form == old(form).(beds := beds) && step == old(step)
    {
      form := form.(beds := beds);
    }

    method SetBathrooms(bathrooms: int)
      modifies this
      ensures form == old(form).(bathrooms := bathrooms) && step == old(step)
    {
      form := form.(bathrooms := bathrooms);
    }

    /** handleSubmit, offered only on the last step: the new listing goes first in the
        catalog. */
    method Submit(store: PropertiesStore, now: nat, user: Option<User>)
      requires Valid() && step == LastStep
      modifies store
      ensures store.properties == [NewListing(ListingId(now), form, user)] + old(store.properties)
      ensures store.filteredProperties == old(store.filteredProperties)
      ensures store.favorites == old(store.favorites)
    {
      store.AddProperty(NewListing(ListingId(now), form, user));
    }
  }
}
