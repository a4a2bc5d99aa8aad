/** The search panel (src/components/smart-filter/SmartFilter.tsx): a controlled component
    that hands every edit back as a new criteria record, its active-filter counter, the
    city, type and quick price selects, the price slider and the strip of active-filter
    chips (`ActiveFilters`). */
module SmartFilter {
  import opened Wrappers
  import opened Seqs
  import opened Text
  import opened Types
  import opened Store

  // ---------------------------------------------------------------- counters

  /** hasActiveFilters: any truthy city, university or type, any price bound set, or a
      non-empty amenity list. */
  predicate HasActiveFilters(c: SearchCriteria) {
    Filled(c.city) || Filled(c.university) || c.minPrice.Some? || c.maxPrice.Some?
    || Filled(c.propertyType) || AmenitiesGiven(c)
  }

  function Indicator(b: bool): nat {
    if b then 1 else 0
  }

  /** activeFiltersCount: how many of city, university, type, "a price bound is set" and
      "the amenity list is non-empty" are truthy. Both price bounds together count once,
      and the counter is positive exactly when hasActiveFilters holds. */
  function ActiveFiltersCount(c: SearchCriteria): (n: nat)
    ensures n <= 5
    ensures n > 0 <==> HasActiveFilters(c)
  {
    Indicator(Filled(c.city)) + Indicator(Filled(c.university)) + Indicator(Filled(c.propertyType))
    + Indicator(c.minPrice.Some? || c.maxPrice.Some?) + Indicator(AmenitiesGiven(c))
  }

  /** toggleAmenity: flips one amenity (an absent list counts as empty) and copies every
      other criterion. */
  function ToggleAmenity(c: SearchCriteria, amenity: string): (r: SearchCriteria)
    ensures r == c.(amenities := r.amenities) && r.amenities.Some?
    ensures amenity in r.amenities.value <==> !(c.amenities.Some? && amenity in c.amenities.value)
    ensures forall a :: a != amenity ==>
              (a in r.amenities.value <==> c.amenities.Some? && a in c.amenities.value)
  {
    var current := c.amenities.GetOr([]);
    c.(amenities := Some(Toggled(current, amenity)))
  }

  /** A toggled-on amenity makes the amenity filter active. */
  lemma ToggledOnIsActive(c: SearchCriteria, amenity: string)
    requires !(c.amenities.Some? && amenity in c.amenities.value)
    ensures AmenitiesGiven(ToggleAmenity(c, amenity))
    ensures HasActiveFilters(ToggleAmenity(c, amenity))
  {
  }

  // ---------------------------------------------------------------- quick price select

  const PriceOptions: seq<string> := ["0-3000", "500-1000", "1000-1500", "1500-2000", "2000-3000"]

  /** `Number(part) || undefined`: zero and `NaN` both become "no bound". */
  function PriceBound(part: string): (b: Option<int>)
    ensures b.Some? <==> Number(part).Some? && Number(part).value != 0
    ensures b.Some? ==> b.value == Number(part).value && b.value > 0
  {
    var n := Number(part);
    if n.Some? && n.value != 0 then Some(n.value) else None
  }

  /** The select's change handler: `value.split('-').map(Number)`, each bound `|| undefined`. */
  function ChoosePrice(c: SearchCriteria, value: string): (r: SearchCriteria)
    ensures r == c.(minPrice := r.minPrice, maxPrice := r.maxPrice)
  {
    var parts := Split(value, '-');
    c.(minPrice := PriceBound(parts[0]),
       maxPrice := if |parts| >= 2 then PriceBound(parts[1]) else None)
  }

  /** JavaScript's `n || fallback` on an optional number. */
  function OrElse(n: Option<int>, fallback: int): (r: int)
    ensures n.Some? && n.value != 0 ==> r == n.value
    ensures n.None? || n.value == 0 ==> r == fallback
  {
    if n.Some? && n.value != 0 then n.value else fallback
  }

  /** The select's shown value, `${minPrice || 0}-${maxPrice || 3000}`. */
  function PriceSelectValue(c: SearchCriteria): string {
    ShowInt(OrElse(c.minPrice, 0)) + "-" + ShowInt(OrElse(c.maxPrice, 3000))
  }

  /** A rendered natural number holds no '-'. */
  lemma NoDashInNumber(n: nat)
    ensures '-' !in ShowNat(n)
  {
    var s := ShowNat(n);
    assert forall i :: 0 <= i < |s| ==> s[i] != '-';
  }

  /** Choosing "a-b" sets the bounds to `a` (none when 0) and `b`, and the select then
      shows "a-b" again. */
  lemma {:induction false} PriceRoundTrip(c: SearchCriteria, a: nat, b: nat)
    requires b > 0
    ensures ChoosePrice(c, ShowNat(a) + "-" + ShowNat(b)).minPrice == if a == 0 then None else Some(a)
    ensures ChoosePrice(c, ShowNat(a) + "-" + ShowNat(b)).maxPrice == Some(b)
    ensures PriceSelectValue(ChoosePrice(c, ShowNat(a) + "-" + ShowNat(b))) == ShowNat(a) + "-" + ShowNat(b)
  {
    NoDashInNumber(a);
    NoDashInNumber(b);
    SplitPair(ShowNat(a), '-', ShowNat(b));
    NumberShowNat(a);
    NumberShowNat(b);
  }

  /** Each option is "min-max" with both bounds rendered in decimal. */
  lemma OptionsAreRenderedBounds()
    ensures PriceOptions[0] == ShowNat(0) + "-" + ShowNat(3000)
    ensures PriceOptions[1] == ShowNat(500) + "-" + ShowNat(1000)
    ensures PriceOptions[2] == ShowNat(1000) + "-" + ShowNat(1500)
    ensures PriceOptions[3] == ShowNat(1500) + "-" + ShowNat(2000)
    ensures PriceOptions[4] == ShowNat(2000) + "-" + ShowNat(3000)
  {
    ShownBounds();
  }

  /** The decimal renderings of the bounds the options use. */
  lemma ShownBounds()
    ensures ShowNat(0) == "0" && ShowNat(500) == "500" && ShowNat(1000) == "1000"
    ensures ShowNat(1500) == "1500" && ShowNat(2000) == "2000" && ShowNat(3000) == "3000"
  {
    ShowHundreds(5);
    ShowHundreds(10);
    ShowHundreds(15);
    ShowHundreds(20);
    ShowHundreds(30);
  }

  /** `${d * 100}` is `${d}` followed by two zeros. */
  lemma ShowHundreds(d: nat)
    requires d > 0
    ensures ShowNat(d * 100) == ShowNat(d) + "00"
  {
    assert ShowNat(d * 10) == ShowNat(d) + "0" by {
      assert (d * 10) / 10 == d && (d * 10) % 10 == 0;
    }
    assert ShowNat(d * 100) == ShowNat(d * 10) + "0" by {
      assert (d * 100) / 10 == d * 10 && (d * 100) % 10 == 0;
    }
  }

  /** Every option of the select survives the round trip through the criteria. */
  lemma PriceOptionsRoundTrip(c: SearchCriteria)
    ensures forall i :: 0 <= i < |PriceOptions| ==> PriceSelectValue(ChoosePrice(c, PriceOptions[i])) == PriceOptions[i]
  {
    OptionsAreRenderedBounds();
    forall i | 0 <= i < |PriceOptions|
      ensures PriceSelectValue(ChoosePrice(c, PriceOptions[i])) == PriceOptions[i]
    {
      if i == 0 {
        PriceRoundTrip(c, 0, 3000);
      } else if i == 1 {
        PriceRoundTrip(c, 500, 1000);
      } else if i == 2 {
        PriceRoundTrip(c, 1000, 1500);
      } else if i == 3 {
        PriceRoundTrip(c, 1500, 2000);
      } else {
        PriceRoundTrip(c, 2000, 3000);
      }
    }
  }

  /** "All prices" still sets a maximum of 3000, so it counts as an active filter. */
  lemma AllPricesIsStillAFilter(c: SearchCriteria)
    ensures ChoosePrice(c, "0-3000").minPrice == None
    ensures ChoosePrice(c, "0-3000").maxPrice == Some(3000)
    ensures HasActiveFilters(ChoosePrice(c, "0-3000"))
  {
    OptionsAreRenderedBounds();
    PriceRoundTrip(c, 0, 3000);
  }

  // ---------------------------------------------------------------- city and type selects

  /** `value || undefined`: the empty "all" option clears the criterion. */
  function SelectedOrNone(value: string): (r: Option<string>)
    ensures value == "" ==> r == None
    ensures value != "" ==> r == Some(value)
  {
    if value == "" then None else Some(value)
  }

  /** `criteria.city || ''` and `criteria.type || ''`: what a select shows. */
  function ShownOption(v: Option<string>): string {
    if Filled(v) then v.value else ""
  }

  /** The city select's change handler: only the city changes. */
  function ChooseCity(c: SearchCriteria, value: string): (r: SearchCriteria)
    ensures r == c.(city := r.city)
    ensures Filled(r.city) <==> value != ""
  {
    c.(city := SelectedOrNone(value))
  }

  /** The type select's change handler: only the type changes. */
  function ChooseType(c: SearchCriteria, value: string): (r: SearchCriteria)
    ensures r == c.(propertyType := r.propertyType)
    ensures Filled(r.propertyType) <==> value != ""
  {
    c.(propertyType := SelectedOrNone(value))
  }

  /** Each select then shows the option chosen, and the "all" option removes that
      criterion from the active-filter count. */
  lemma SelectsRoundTrip(c: SearchCriteria, value: string)
    ensures ShownOption(ChooseCity(c, value).city) == value
    ensures ShownOption(ChooseType(c, value).propertyType) == value
    ensures ActiveFiltersCount(ChooseCity(c, "")) + Indicator(Filled(c.city)) == ActiveFiltersCount(c)
    ensures ActiveFiltersCount(ChooseType(c, "")) + Indicator(Filled(c.propertyType)) == ActiveFiltersCount(c)
  {
  }

  // ---------------------------------------------------------------- price slider

  /** The slider's lower and upper bounds and step. */
  const SliderMin := 500
  const SliderMax := 3000

  /** A position the slider can take: a multiple of 50 between its bounds. */
  predicate OnSlider(v: int) {
    SliderMin <= v <= SliderMax && v % 50 == 0
  }

  /** The slider's thumbs, `[minPrice || 500, maxPrice || 3000]`. */
  function SliderThumbs(c: SearchCriteria): (int, int) {
    (OrElse(c.minPrice, SliderMin), OrElse(c.maxPrice, SliderMax))
  }

  /** onValueChange: both bounds are set as given, with no `|| undefined`. */
  function SlidePrice(c: SearchCriteria, min: int, max: int): (r: SearchCriteria)
    ensures r == c.(minPrice := r.minPrice, maxPrice := r.maxPrice)
    ensures r.minPrice == Some(min) && r.maxPrice == Some(max)
  {
    c.(minPrice := Some(min), maxPrice := Some(max))
  }

  /** The thumbs then sit where they were dragged. Unlike the quick select, dragging
      sets a bound even at the slider's ends, so the full range 500 to 3000 still counts
      as an active price filter. */
  lemma SliderRoundTrip(c: SearchCriteria, min: int, max: int)
    requires OnSlider(min) && OnSlider(max)
    ensures SliderThumbs(SlidePrice(c, min, max)) == (min, max)
    ensures HasActiveFilters(SlidePrice(c, min, max))
    ensures SlidePrice(c, SliderMin, SliderMax).minPrice == Some(500)
    ensures ChoosePrice(c, ShowNat(0) + "-" + ShowNat(3000)).minPrice == None
  {
    PriceRoundTrip(c, 0, 3000);
  }

  // ---------------------------------------------------------------- active filter chips

  /** The criterion a chip removes; the price chip is keyed by `minPrice`. */
  datatype FilterKey = CityKey | TypeKey | PriceKey | AmenitiesKey

  datatype Chip = Chip(key: FilterKey, caption: string, value: string)

  const DisplayOrder: seq<FilterKey> := [CityKey, TypeKey, PriceKey, AmenitiesKey]

  /** `table.find(t => t.id === id)`. */
  function Find(table: seq<Labelled>, id: string): (r: Option<Labelled>)
    ensures r.Some? <==> exists i :: 0 <= i < |table| && table[i].id == id
    ensures r.Some? ==> r.value in table && r.value.id == id
    ensures forall i :: 0 <= i < |table| && table[i].id == id && (forall j :: 0 <= j < i ==> table[j].id != id) ==>
              r == Some(table[i])
  {
    if table == [] then None
    else if table[0].id == id then Some(table[0])
    else
      assert forall i :: 1 <= i < |table| ==> table[1..][i - 1] == table[i];
      Find(table[1..], id)
  }

  /** `table.find(t => t.id === id)?.name || id`: the display name, or the id itself. */
  function LabelOf(table: seq<Labelled>, id: string): (name: string)
    ensures (forall i :: 0 <= i < |table| ==> table[i].id != id) ==> name == id
    ensures name == id || exists i :: 0 <= i < |table| && table[i].id == id && table[i].name == name
    ensures forall i :: 0 <= i < |table| && table[i].id == id && (forall j :: 0 <= j < i ==> table[j].id != id) ==>
              name == if table[i].name != "" then table[i].name else id
  {
    var entry := Find(table, id);
    if entry.Some? && entry.value.name != "" then entry.value.name else id
  }

  function AmenityLabels(ids: seq<string>): (r: seq<string>)
    ensures |r| == |ids| && forall i :: 0 <= i < |ids| ==> r[i] == LabelOf(AmenityTable, ids[i])
  {
    if ids == [] then [] else [LabelOf(AmenityTable, ids[0])] + AmenityLabels(ids[1..])
  }

  function Keys(chips: seq<Chip>): (r: seq<FilterKey>)
    ensures |r| == |chips| && forall i :: 0 <= i < |chips| ==> r[i] == chips[i].key
  {
    if chips == [] then [] else [chips[0].key] + Keys(chips[1..])
  }

  function CityChips(c: SearchCriteria): seq<Chip> {
    if Filled(c.city) then [Chip(CityKey, "المدينة", c.city.value)] else []
  }

  function TypeChips(c: SearchCriteria): seq<Chip> {
    if Filled(c.propertyType) then
      [Chip(TypeKey, "النوع", LabelOf(PropertyTypeTable, c.propertyType.value))]
    else []
  }

  function PriceChips(c: SearchCriteria): seq<Chip> {
    if c.minPrice.Some? || c.maxPrice.Some? then
      [Chip(PriceKey, "السعر", ShowInt(OrElse(c.minPrice, 500)) + "-" + ShowInt(OrElse(c.maxPrice, 3000)) + " ج")]
    else []
  }

  function AmenityChips(c: SearchCriteria): seq<Chip> {
    if AmenitiesGiven(c) then [Chip(AmenitiesKey, "المرافق", Join(AmenityLabels(c.amenities.value), ", "))]
    else []
  }

  /** The chips ActiveFilters pushes, in push order. */
  function FilterChips(c: SearchCriteria): seq<Chip> {
    CityChips(c) + TypeChips(c) + PriceChips(c) + AmenityChips(c)
  }

  /** Whether the criterion behind a chip key is set. */
  function Shown(c: SearchCriteria): FilterKey -> bool {
    (k: FilterKey) =>
      match k
      case CityKey => Filled(c.city)
      case TypeKey => Filled(c.propertyType)
      case PriceKey => c.minPrice.Some? || c.maxPrice.Some?
      case AmenitiesKey => AmenitiesGiven(c)
  }

  lemma KeysConcat(a: seq<Chip>, b: seq<Chip>)
    ensures Keys(a + b) == Keys(a) + Keys(b)
  {
    var whole, parts := Keys(a + b), Keys(a) + Keys(b);
    forall i | 0 <= i < |whole|
      ensures whole[i] == parts[i]
    {
      if i < |a| {
        assert (a + b)[i] == a[i];
      } else {
        assert (a + b)[i] == b[i - |a|];
      }
    }
    assert |whole| == |parts|;
  }

  /** Filtering the display order, key by key. */
  lemma FilterDisplayOrder(order: seq<FilterKey>, f: FilterKey -> bool)
    requires order == DisplayOrder
    ensures Filter(order, f) ==
              (if f(CityKey) then [CityKey] else []) + (if f(TypeKey) then [TypeKey] else [])
              + (if f(PriceKey) then [PriceKey] else []) + (if f(AmenitiesKey) then [AmenitiesKey] else [])
  {
    var t3 := order[1..];
    var t2 := t3[1..];
    var t1 := t2[1..];
    assert order == [CityKey] + t3 && t3 == [TypeKey] + t2 && t2 == [PriceKey] + t1 && t1 == [AmenitiesKey] + [];
    var ck: seq<FilterKey> := if f(CityKey) then [CityKey] else [];
    var tk: seq<FilterKey> := if f(TypeKey) then [TypeKey] else [];
    var pk: seq<FilterKey> := if f(PriceKey) then [PriceKey] else [];
    var ak: seq<FilterKey> := if f(AmenitiesKey) then [AmenitiesKey] else [];
    FilterCons([], AmenitiesKey, f);
    assert Filter(t1, f) == ak;
    FilterCons(t1, PriceKey, f);
    assert Filter(t2, f) == pk + ak;
    FilterCons(t2, TypeKey, f);
    assert Filter(t3, f) == tk + (pk + ak);
    FilterCons(t3, CityKey, f);
    assert Filter(order, f) == ck + (tk + (pk + ak));
    ConcatAssoc(ck, tk, pk + ak);
    ConcatAssoc(ck + tk, pk, ak);
  }

  lemma ConcatAssoc<T>(a: seq<T>, b: seq<T>, c: seq<T>)
    ensures a + (b + c) == a + b + c
  {
    assert forall i :: 0 <= i < |a + b + c| ==> (a + (b + c))[i] == (a + b + c)[i];
  }

  /** The chip keys are the display order city, type, price, amenities restricted to the
      criteria that are set; so no chip is shown for the university. */
  lemma FilterChipsExact(c: SearchCriteria)
    ensures Keys(FilterChips(c)) == Filter(DisplayOrder, Shown(c))
  {
    var a, b, p, m := CityChips(c), TypeChips(c), PriceChips(c), AmenityChips(c);
    KeysConcat(a, b);
    KeysConcat(a + b, p);
    KeysConcat(a + b + p, m);
    PartKeys(c);
    FilterDisplayOrder(DisplayOrder, Shown(c));
  }

  /** Each group of chips has its criterion's key when that criterion is set. */
  lemma PartKeys(c: SearchCriteria)
    ensures Keys(CityChips(c)) == if Shown(c)(CityKey) then [CityKey] else []
    ensures Keys(TypeChips(c)) == if Shown(c)(TypeKey) then [TypeKey] else []
    ensures Keys(PriceChips(c)) == if Shown(c)(PriceKey) then [PriceKey] else []
    ensures Keys(AmenityChips(c)) == if Shown(c)(AmenitiesKey) then [AmenitiesKey] else []
  {
  }

  /** There is one chip fewer than the counter says exactly when a university is set. */
  lemma FilterChipsCounted(c: SearchCriteria)
    ensures |FilterChips(c)| + Indicator(Filled(c.university)) == ActiveFiltersCount(c)
  {
    var a, b, p, m := CityChips(c), TypeChips(c), PriceChips(c), AmenityChips(c);
    assert |FilterChips(c)| == |a| + |b| + |p| + |m|;
    assert |a| == Indicator(Filled(c.city)) && |b| == Indicator(Filled(c.propertyType));
    assert |p| == Indicator(c.minPrice.Some? || c.maxPrice.Some?) && |m| == Indicator(AmenitiesGiven(c));
  }

  /** Hence the chips come in display order and each set criterion has one. */
  lemma FilterChipsInOrder(c: SearchCriteria)
    ensures IsSublist(Keys(FilterChips(c)), DisplayOrder)
    ensures forall k :: k in Keys(FilterChips(c)) <==> Shown(c)(k)
  {
    FilterChipsExact(c);
    FilterIsSublist(DisplayOrder, Shown(c));
    forall k
      ensures k in Keys(FilterChips(c)) <==> Shown(c)(k)
    {
      assert k == DisplayOrder[match k case CityKey => 0 case TypeKey => 1 case PriceKey => 2 case AmenitiesKey => 3];
    }
  }

  /** An unset or zero price bound is shown as 500 below and 3000 above. */
  lemma PriceChipDefaults(c: SearchCriteria)
    requires c.minPrice == None && c.maxPrice == Some(0)
    ensures PriceChips(c) == [Chip(PriceKey, "السعر", "500-3000 ج")]
  {
    ShowDefaultBounds();
    assert OrElse(c.minPrice, 500) == 500 && OrElse(c.maxPrice, 3000) == 3000;
    assert "500" + "-" + "3000" + " ج" == "500-3000 ج";
  }

  lemma ShowDefaultBounds()
    ensures ShowInt(500) == "500" && ShowInt(3000) == "3000"
  {
    assert ShowNat(5) == "5" && ShowNat(50) == "50" && ShowNat(500) == "500";
    assert ShowNat(3) == "3" && ShowNat(30) == "30" && ShowNat(300) == "300" && ShowNat(3000) == "3000";
  }

  /** A type id outside the table is shown as itself; a known one by its Arabic name. */
  lemma TypeChipLabels()
    ensures LabelOf(PropertyTypeTable, "private_room") == "غرفة خاصة"
    ensures LabelOf(PropertyTypeTable, "villa") == "villa"
  {
    assert Find(PropertyTypeTable, "private_room") == Some(PropertyTypeTable[1]);
  }

  /** ActiveFilters: the chips pushed one criterion at a time; nothing is rendered when
      there are none. */
  method ActiveFilters(c: SearchCriteria) returns (r: Option<seq<Chip>>)
    ensures r.None? <==> FilterChips(c) == []
    ensures r.Some? ==> r.value == FilterChips(c)
    ensures r.None? <==> ActiveFiltersCount(c) == Indicator(Filled(c.university))
  {
    var filters: seq<Chip> := [];
    if Filled(c.city) {
      filters := filters + [Chip(CityKey, "المدينة", c.city.value)];
    }
    assert filters == CityChips(c);
    if Filled(c.propertyType) {
      var typeLabel := LabelOf(PropertyTypeTable, c.propertyType.value);
      filters := filters + [Chip(TypeKey, "النوع", typeLabel)];
    }
    assert filters == CityChips(c) + TypeChips(c);
    if c.minPrice.Some? || c.maxPrice.Some? {
      var min := OrElse(c.minPrice, 500);
      var max := OrElse(c.maxPrice, 3000);
      filters := filters + [Chip(PriceKey, "السعر", ShowInt(min) + "-" + ShowInt(max) + " ج")];
    }
    assert filters == CityChips(c) + TypeChips(c) + PriceChips(c);
    if AmenitiesGiven(c) {
      var amenityLabels := AmenityLabels(c.amenities.value);
      filters := filters + [Chip(AmenitiesKey, "المرافق", Join(amenityLabels, ", "))];
    }
    assert filters == FilterChips(c);
    FilterChipsCounted(c);
    if |filters| == 0 {
      return None;
    }
    return Some(filters);
  }
}
