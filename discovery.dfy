/**
 * The discovery route of src/routes/discover/discovery.ts: the three `where` builders,
 * the assembly of the venue query, the flattening of the fetched venues into markers
 * or feed cards, the fetch by explicit ids and the route handler that chooses between
 * the two. The store is a parameter: a function from a venue query to the venues (with
 * their already filtered events and promotions) it returns, and one per kind for the
 * reads by id. The nearest-city lookup is an `Option<int>` argument.
 */
module Discovery {
  import opened Wrappers
  import opened Models
  import opened Geo
  import opened Mappers

  // ---------------------------------------------------------------------------
  // Filters
  // ---------------------------------------------------------------------------

  datatype View = MapView | ListView

  /** The validated query string; an absent parameter is `None`. */
  datatype Filters = Filters(
    venueIds: Option<seq<int>>,
    promotionIds: Option<seq<int>>,
    eventIds: Option<seq<int>>,
    venueTypes: Option<seq<int>>,
    hasEvents: Option<bool>,
    hasPromotions: Option<bool>,
    isAccessible: Option<bool>,
    isOutdoors: Option<bool>,
    promotionTypes: Option<seq<int>>,
    maxPrice: Option<real>,
    eventTypes: Option<seq<int>>,
    startDate: Option<int>,
    endDate: Option<int>,
    locations: Option<seq<int>>,
    bounds: Option<seq<real>>,
    coords: Option<seq<real>>,
    search: Option<string>,
    view: View)

  /** `list && list.length > 0`. */
  predicate HasItems<T>(list: Option<seq<T>>) { list.Some? && |list.value| > 0 }

  /** A truthy flag. */
  predicate IsSet(flag: Option<bool>) { flag == Some(true) }

  /** A truthy number: present and not 0. */
  predicate IsNonZero(x: Option<real>) { x.Some? && x.value != 0.0 }

  /** A truthy string: present and not empty. */
  predicate IsNonEmpty(s: Option<string>) { s.Some? && s.value != "" }

  /** `filters.locations && filters.locations.length > 0 && filters.view === "list"`. */
  predicate CityFilter(f: Filters) { HasItems(f.locations) && f.view == ListView }

  // ---------------------------------------------------------------------------
  // Where clauses: one optional field per Prisma key
  // ---------------------------------------------------------------------------

  function Count<T>(o: Option<T>): nat { if o.Some? then 1 else 0 }

  /** A location constraint: a lat/lng box, or a set of city ids. */
  datatype LocationCond = InBox(minLat: real, maxLat: real, minLng: real, maxLng: real) | CityIn(cityIds: seq<int>)

  /** `startDate: { gte, lte }`, in milliseconds. */
  datatype DateWindow = DateWindow(gte: int, lte: int)

  /** `Prisma.EventWhereInput` as built here; `textOr` is the title/description/headline search. */
  datatype EventWhere = EventWhere(
    eventTypeId: Option<seq<int>>,
    priceLte: Option<real>,
    textOr: Option<string>,
    location: Option<LocationCond>)
  {
    /** `Object.keys(where).length`. */
    function KeyCount(): nat { Count(eventTypeId) + Count(priceLte) + Count(textOr) + Count(location) }
  }

  /** `Prisma.PromotionWhereInput` as built here. */
  datatype PromotionWhere = PromotionWhere(
    promotionTypeId: Option<seq<int>>,
    textOr: Option<string>,
    location: Option<LocationCond>)
  {
    function KeyCount(): nat { Count(promotionTypeId) + Count(textOr) + Count(location) }
  }

  /** The `events` key: `{ some: {} }`, or `{ some: { ...eventsWhere, startDate } }`. */
  datatype EventsCond = AnyEvent | SomeEventMatching(where: EventWhere, startDate: DateWindow)

  /** The `promotions` key, likewise. */
  datatype PromotionsCond = AnyPromotion | SomePromotionMatching(where: PromotionWhere, startDate: DateWindow)

  /** One entry of `nestedConditions`: an object with a single `events` or `promotions` key. */
  datatype Nested = EventsNested(events: EventsCond) | PromotionsNested(promotions: PromotionsCond)

  /** The `OR` key of a venue query: the name/description search, or the nested conditions. */
  datatype VenueOr = TextOr(search: string) | AnyOf(conditions: seq<Nested>)

  /** `Prisma.VenueWhereInput` as built here, for both `venuesWhere` and `venueQuery`. */
  datatype VenueWhere = VenueWhere(
    venueTypeId: Option<seq<int>>,
    events: Option<EventsCond>,
    promotions: Option<PromotionsCond>,
    isAccessible: Option<bool>,
    isOutdoor: Option<bool>,
    or: Option<VenueOr>,
    location: Option<LocationCond>)
  {
    function KeyCount(): nat
    {
      Count(venueTypeId) + Count(events) + Count(promotions) + Count(isAccessible) + Count(isOutdoor)
        + Count(or) + Count(location)
    }
  }

  const EmptyVenueWhere := VenueWhere(None, None, None, None, None, None, None)

  /**
   * `Object.assign(target, source)`: every key present in `source` overwrites `target`'s,
   * every key absent from `source` keeps `target`'s value (or its absence).
   */
  function Assign(target: VenueWhere, source: VenueWhere): (r: VenueWhere)
    ensures source.venueTypeId.Some? ==> r.venueTypeId == source.venueTypeId
    ensures source.venueTypeId.None? ==> r.venueTypeId == target.venueTypeId
    ensures source.events.Some? ==> r.events == source.events
    ensures source.events.None? ==> r.events == target.events
    ensures source.promotions.Some? ==> r.promotions == source.promotions
    ensures source.promotions.None? ==> r.promotions == target.promotions
    ensures source.isAccessible.Some? ==> r.isAccessible == source.isAccessible
    ensures source.isAccessible.None? ==> r.isAccessible == target.isAccessible
    ensures source.isOutdoor.Some? ==> r.isOutdoor == source.isOutdoor
    ensures source.isOutdoor.None? ==> r.isOutdoor == target.isOutdoor
    ensures source.or.Some? ==> r.or == source.or
    ensures source.or.None? ==> r.or == target.or
    ensures source.location.Some? ==> r.location == source.location
    ensures source.location.None? ==> r.location == target.location
  {
    VenueWhere(
      Overwrite(target.venueTypeId, source.venueTypeId),
      Overwrite(target.events, source.events),
      Overwrite(target.promotions, source.promotions),
      Overwrite(target.isAccessible, source.isAccessible),
      Overwrite(target.isOutdoor, source.isOutdoor),
      Overwrite(target.or, source.or),
      Overwrite(target.location, source.location))
  }

  /** One key of `Object.assign`: the source's value when it has the key, else the target's. */
  function Overwrite<T>(target: Option<T>, source: Option<T>): Option<T>
  {
    if source.Some? then source else target
  }

  /**
   * The laws of `Object.assign` on these objects: an empty source or target changes
   * nothing, assigning the same source twice is assigning it once, and successive
   * assigns compose.
   */
  lemma {:induction false} AssignLaws(a: VenueWhere, b: VenueWhere, c: VenueWhere)
    ensures Assign(a, EmptyVenueWhere) == a && Assign(EmptyVenueWhere, a) == a
    ensures Assign(Assign(a, b), b) == Assign(a, b)
    ensures Assign(Assign(a, b), c) == Assign(a, Assign(b, c))
    ensures Assign(a, b).KeyCount() >= b.KeyCount()
  {
  }

  /** `Object.assign(venueQuery, nested)`: sets the one key the nested condition has. */
  function AssignNested(target: VenueWhere, nested: Nested): (r: VenueWhere)
    ensures r.location == target.location && r.or == target.or
  {
    match nested
    case EventsNested(c) => target.(events := Some(c))
    case PromotionsNested(c) => target.(promotions := Some(c))
  }

  // ---------------------------------------------------------------------------
  // The three builders
  // ---------------------------------------------------------------------------

  /** The city constraint a builder adds in list view. */
  function CityClause(f: Filters): (r: Option<LocationCond>)
    ensures r.Some? <==> CityFilter(f)
    ensures r.Some? ==> r.value == CityIn(f.locations.value)
  {
    if CityFilter(f) then Some(CityIn(f.locations.value)) else None
  }

  /** `createVenueWhere`: one key per present venue filter. */
  function CreateVenueWhere(f: Filters): (w: VenueWhere)
    ensures w.KeyCount() > 0 <==>
      HasItems(f.venueTypes) || IsSet(f.hasEvents) || IsSet(f.hasPromotions) || IsSet(f.isAccessible)
      || IsSet(f.isOutdoors) || IsNonEmpty(f.search) || CityFilter(f)
    ensures w.location == CityClause(f)
    ensures w.or.Some? <==> IsNonEmpty(f.search)
    ensures w.or.Some? ==> w.or.value == TextOr(f.search.value)
    ensures w.events.Some? ==> w.events.value == AnyEvent
    ensures w.promotions.Some? ==> w.promotions.value == AnyPromotion
  {
    VenueWhere(
      if HasItems(f.venueTypes) then f.venueTypes else None,
      if IsSet(f.hasEvents) then Some(AnyEvent) else None,
      if IsSet(f.hasPromotions) then Some(AnyPromotion) else None,
      if IsSet(f.isAccessible) then f.isAccessible else None,
      if IsSet(f.isOutdoors) then f.isOutdoors else None,
      if IsNonEmpty(f.search) then Some(TextOr(f.search.value)) else None,
      CityClause(f))
  }

  /** `createEventWhere`: event types, a truthy price cap, a search and the city list. */
  function CreateEventWhere(f: Filters): (w: EventWhere)
    ensures w.KeyCount() > 0 <==> HasItems(f.eventTypes) || IsNonZero(f.maxPrice) || IsNonEmpty(f.search) || CityFilter(f)
    ensures w.location == CityClause(f)
    ensures w.priceLte.Some? <==> IsNonZero(f.maxPrice)
  {
    EventWhere(
      if HasItems(f.eventTypes) then f.eventTypes else None,
      if IsNonZero(f.maxPrice) then f.maxPrice else None,
      if IsNonEmpty(f.search) then f.search else None,
      CityClause(f))
  }

  /** `createPromotionWhere`: promotion types, a search and the city list. */
  function CreatePromotionWhere(f: Filters): (w: PromotionWhere)
    ensures w.KeyCount() > 0 <==> HasItems(f.promotionTypes) || IsNonEmpty(f.search) || CityFilter(f)
    ensures w.location == CityClause(f)
  {
    PromotionWhere(
      if HasItems(f.promotionTypes) then f.promotionTypes else None,
      if IsNonEmpty(f.search) then f.search else None,
      CityClause(f))
  }

  /** `hasVenueFilters`, `hasEventFilters`, `hasPromotionFilters`. */
  datatype Activity = Activity(venue: bool, event: bool, promotion: bool)
  {
    /** `noFilters`. */
    predicate Inactive() { !venue && !event && !promotion }
  }

  function ActivityOf(f: Filters): Activity
  {
    Activity(CreateVenueWhere(f).KeyCount() > 0, CreateEventWhere(f).KeyCount() > 0,
             CreatePromotionWhere(f).KeyCount() > 0)
  }

  /** A non-empty city list in list view makes all three kinds active; in map view it adds nothing. */
  lemma {:induction false} CityListActivatesAll(f: Filters)
    ensures CityFilter(f) ==> ActivityOf(f) == Activity(true, true, true)
    ensures f.view == MapView ==>
      && CreateVenueWhere(f).location.None? && CreateEventWhere(f).location.None?
      && CreatePromotionWhere(f).location.None?
  {
  }

  // ---------------------------------------------------------------------------
  // The venue query
  // ---------------------------------------------------------------------------

  const BoundsRequired := "Bounds required for map view"
  const CoordsRequired := "Coords required for list view"
  const DayMs: int := 24 * 60 * 60 * 1000

  /** The view/geometry preconditions, checked before anything is read. */
  function GeometryError(f: Filters): (e: Option<string>)
    ensures e == Some(BoundsRequired) <==> f.view == MapView && !(f.bounds.Some? && |f.bounds.value| == 4)
    ensures e == Some(CoordsRequired) <==> f.view == ListView && !(f.coords.Some? && |f.coords.value| == 2)
    ensures e.None? <==> GeometryOk(f)
  {
    if f.view == MapView && (f.bounds.None? || |f.bounds.value| != 4) then Some(BoundsRequired)
    else if f.view == ListView && (f.coords.None? || |f.coords.value| != 2) then Some(CoordsRequired)
    else None
  }

  /** Map view has four bounds, list view two coordinates. */
  predicate GeometryOk(f: Filters)
  {
    match f.view
    case MapView => f.bounds.Some? && |f.bounds.value| == 4
    case ListView => f.coords.Some? && |f.coords.value| == 2
  }

  /** The `parseBounds` box of map view. */
  function BoundsBox(bounds: seq<real>): (c: LocationCond)
    requires |bounds| == 4
    ensures c.InBox? && c.minLat <= c.maxLat && c.minLng <= c.maxLng
  {
    var b := ParseBounds(bounds);
    InBox(b[0], b[1], b[2], b[3])
  }

  /**
   * `filters.locations` after the fallback: when no list was given and both user
   * coordinates are truthy, the nearest city (if the lookup found one).
   */
  function EffectiveLocations(f: Filters, nearestCity: Option<int>): (r: Option<seq<int>>)
    requires f.view == ListView && GeometryOk(f)
    ensures f.locations.Some? ==> r == f.locations
    ensures r != f.locations ==> nearestCity.Some? && r == Some([nearestCity.value])
    ensures f.locations.None? && nearestCity.None? ==> r.None?
  {
    if f.locations.None? && f.coords.value[0] != 0.0 && f.coords.value[1] != 0.0 && nearestCity.Some? then
      Some([nearestCity.value])
    else f.locations
  }

  /** The location key of `venueQuery` before the venue filters are assigned. */
  function BaseLocation(f: Filters, nearestCity: Option<int>): Option<LocationCond>
    requires GeometryOk(f)
  {
    match f.view
    case MapView => Some(BoundsBox(f.bounds.value))
    case ListView =>
      var locations := EffectiveLocations(f, nearestCity);
      if HasItems(locations) then Some(CityIn(locations.value)) else None
  }

  /** `startDate: { gte: filters.startDate ?? today, lte: filters.endDate ?? today + 30 days }`. */
  function Window(f: Filters, now: int): (w: DateWindow)
    ensures f.startDate.Some? ==> w.gte == f.startDate.value
    ensures f.endDate.Some? ==> w.lte == f.endDate.value
    ensures f.startDate.None? && f.endDate.None? ==> w.gte == now && w.lte - w.gte == 30 * DayMs
  {
    DateWindow(f.startDate.GetOr(now), f.endDate.GetOr(now + 30 * DayMs))
  }

  /** `nestedConditions`: the event condition, then the promotion condition, for the active kinds. */
  function NestedConditions(f: Filters, now: int): (r: seq<Nested>)
    ensures |r| == (if ActivityOf(f).event then 1 else 0) + (if ActivityOf(f).promotion then 1 else 0)
  {
    (if ActivityOf(f).event then [EventsNested(SomeEventMatching(CreateEventWhere(f), Window(f, now)))] else [])
    + (if ActivityOf(f).promotion
       then [PromotionsNested(SomePromotionMatching(CreatePromotionWhere(f), Window(f, now)))] else [])
  }

  /** Combines the nested conditions: one is ANDed in, two become the `OR`. */
  function CombineNested(q: VenueWhere, nested: seq<Nested>): VenueWhere
  {
    if |nested| == 1 then AssignNested(q, nested[0])
    else if |nested| > 1 then q.(or := Some(AnyOf(nested)))
    else q
  }

  /** The `venueQuery` that `fetchDiscoveryData` sends to the store. */
  function VenueQuery(f: Filters, nearestCity: Option<int>, now: int): VenueWhere
    requires GeometryOk(f)
  {
    var q0 := EmptyVenueWhere.(location := BaseLocation(f, nearestCity));
    var q1 := if ActivityOf(f).venue then Assign(q0, CreateVenueWhere(f)) else q0;
    CombineNested(q1, NestedConditions(f, now))
  }

  /** In map view the location key of the venue query is exactly the `parseBounds` box. */
  lemma {:induction false} MapViewKeepsBox(f: Filters, nearestCity: Option<int>, now: int)
    requires f.view == MapView && GeometryOk(f)
    ensures VenueQuery(f, nearestCity, now).location == Some(BoundsBox(f.bounds.value))
  {
    var q0 := EmptyVenueWhere.(location := BaseLocation(f, nearestCity));
    var q1 := if ActivityOf(f).venue then Assign(q0, CreateVenueWhere(f)) else q0;
    assert q1.location == q0.location;
    var nested := NestedConditions(f, now);
    if |nested| == 1 {
      assert AssignNested(q1, nested[0]).location == q1.location;
    }
  }

  /**
   * The nearest-city fallback constrains the venue location only: it runs after the
   * builders, so the builders see no city list, although the same list given by the
   * client would have made all three kinds active.
   */
  lemma {:induction false} FallbackLeavesFlags(f: Filters, city: int, now: int)
    requires f.view == ListView && GeometryOk(f) && f.locations.None?
    requires f.coords.value[0] != 0.0 && f.coords.value[1] != 0.0
    ensures VenueQuery(f, Some(city), now).location == Some(CityIn([city]))
    ensures CreateVenueWhere(f).location.None? && CreateEventWhere(f).location.None?
    ensures CreatePromotionWhere(f).location.None?
    ensures ActivityOf(f.(locations := Some([city]))) == Activity(true, true, true)
  {
    CityListActivatesAll(f.(locations := Some([city])));
    var q0 := EmptyVenueWhere.(location := BaseLocation(f, Some(city)));
    assert q0.location == Some(CityIn([city]));
    var q1 := if ActivityOf(f).venue then Assign(q0, CreateVenueWhere(f)) else q0;
    assert q1.location == q0.location;
    var nested := NestedConditions(f, now);
    if |nested| == 1 {
      assert AssignNested(q1, nested[0]).location == q1.location;
    }
  }

  /**
   * Exactly one active nested kind is ANDed into the query (its key is set, the `OR`
   * is left alone); with both active, `OR` becomes the two conditions in order,
   * replacing a venue search. Each condition carries the date window.
   */
  lemma {:induction false} NestedCombination(f: Filters, nearestCity: Option<int>, now: int)
    requires GeometryOk(f)
    ensures var q := VenueQuery(f, nearestCity, now);
      var a := ActivityOf(f);
      var w := Window(f, now);
      && (a.event && !a.promotion ==> q.events == Some(SomeEventMatching(CreateEventWhere(f), w)))
      && (a.promotion && !a.event ==> q.promotions == Some(SomePromotionMatching(CreatePromotionWhere(f), w)))
      && (a.event != a.promotion ==> q.or == (if a.venue then CreateVenueWhere(f).or else None))
      && (a.event && a.promotion ==> q.or == Some(AnyOf([
            EventsNested(SomeEventMatching(CreateEventWhere(f), w)),
            PromotionsNested(SomePromotionMatching(CreatePromotionWhere(f), w))])))
  {
    var a := ActivityOf(f);
    var w := Window(f, now);
    var ev := EventsNested(SomeEventMatching(CreateEventWhere(f), w));
    var pr := PromotionsNested(SomePromotionMatching(CreatePromotionWhere(f), w));
    var nested := NestedConditions(f, now);
    var q0 := EmptyVenueWhere.(location := BaseLocation(f, nearestCity));
    var q1 := if a.venue then Assign(q0, CreateVenueWhere(f)) else q0;
    assert q1.or == (if a.venue then CreateVenueWhere(f).or else None);
    assert VenueQuery(f, nearestCity, now) == CombineNested(q1, nested);
    if a.event && a.promotion {
      assert nested == [ev, pr];
    } else if a.event {
      assert nested == [ev];
    } else if a.promotion {
      assert nested == [pr];
    }
  }

  // ---------------------------------------------------------------------------
  // Flattening the fetched venues
  // ---------------------------------------------------------------------------

  /** One result entry: a marker in map view, a feed card in list view. */
  datatype DiscoveryItem = MarkerItem(marker: Marker) | CardItem(card: FeedItem)

  /** The error a mapper raises when it dereferences a missing venue location. */
  const NullLocation := "Cannot read properties of null (reading 'lat')"

  /** Which parts of each venue are emitted. */
  datatype Emission = Emission(venue: bool, events: bool, promotions: bool)

  /**
   * The parts the `forEach` body pushes. With no active kind everything is emitted.
   * Otherwise the source tests "event filters, or neither venue nor promotion filters"
   * (and likewise for promotions); once some kind is active that second disjunct can
   * only hold together with the first, so exactly the active kinds are emitted.
   */
  function EmissionOf(a: Activity): (e: Emission)
    ensures a.Inactive() ==> e == Emission(true, true, true)
    ensures !a.Inactive() ==> e == Emission(a.venue, a.event, a.promotion)
  {
    if a.Inactive() then Emission(true, true, true)
    else Emission(a.venue, a.event || (!a.venue && !a.promotion), a.promotion || (!a.venue && !a.event))
  }

  /** Whether mapping this venue in this view dereferences a missing location. */
  predicate MapFails(v: Venue, e: Emission, view: View)
  {
    view == MapView && v.location.None?
      && (e.venue || (e.events && |v.events| > 0) || (e.promotions && |v.promotions| > 0))
  }

  function VenueItem(v: Venue, view: View): DiscoveryItem
    requires view == MapView ==> v.location.Some?
  {
    if view == MapView then MarkerItem(VenueToMarker(v)) else CardItem(VenueToFeedItem(v))
  }

  function EventItem(event: Event, venue: VenueRef, view: View): DiscoveryItem
    requires view == MapView ==> venue.location.Some?
  {
    if view == MapView then MarkerItem(EventToMarker(event, venue)) else CardItem(EventToFeedItem(event, venue))
  }

  function PromotionItem(promotion: Promotion, venue: VenueRef, view: View): DiscoveryItem
    requires view == MapView ==> venue.location.Some?
  {
    if view == MapView then MarkerItem(PromotionToMarker(promotion, venue))
    else CardItem(PromotionToFeedItem(promotion, venue))
  }

  /** The entries of a venue's events, one per event in order (their kind by view: EventItemsMatchView). */
  function EventItems(events: seq<Event>, venue: VenueRef, view: View): (r: seq<DiscoveryItem>)
    requires view == MapView ==> venue.location.Some?
    ensures |r| == |events|
    ensures forall i :: 0 <= i < |r| ==> r[i] == EventItem(events[i], venue, view)
  {
    if events == [] then []
    else EventItems(events[..|events| - 1], venue, view) + [EventItem(events[|events| - 1], venue, view)]
  }

  /** The entries of a venue's promotions, one per promotion in order (see PromotionItemsMatchView). */
  function PromotionItems(promotions: seq<Promotion>, venue: VenueRef, view: View): (r: seq<DiscoveryItem>)
    requires view == MapView ==> venue.location.Some?
    ensures |r| == |promotions|
    ensures forall i :: 0 <= i < |r| ==> r[i] == PromotionItem(promotions[i], venue, view)
  {
    if promotions == [] then []
    else
      var init := promotions[..|promotions| - 1];
      PromotionItems(init, venue, view) + [PromotionItem(promotions[|promotions| - 1], venue, view)]
  }

  /** How many entries a venue contributes under an emission. */
  function EmittedCount(v: Venue, e: Emission): nat
  {
    (if e.venue then 1 else 0) + (if e.events then |v.events| else 0) + (if e.promotions then |v.promotions| else 0)
  }

  /**
   * The entries one venue contributes: itself, then its events, then its promotions.
   * It fails exactly when a map-view mapper would read a missing venue location; a
   * venue without a location that has nothing to emit contributes nothing.
   */
  function VenueEntries(v: Venue, e: Emission, view: View): (r: Result<seq<DiscoveryItem>>)
    ensures r.Failure? <==> MapFails(v, e, view)
    ensures r.Failure? ==> r.message == NullLocation
    ensures r.Success? ==> |r.value| == EmittedCount(v, e)
  {
    if MapFails(v, e, view) then Failure(NullLocation)
    else if view == MapView && v.location.None? then Success([])
    else Success(VenueParts(v, e, view))
  }

  /** The emitted parts of a venue whose location the view can use. */
  function VenueParts(v: Venue, e: Emission, view: View): seq<DiscoveryItem>
    requires view == MapView ==> v.location.Some?
  {
    (if e.venue then [VenueItem(v, view)] else [])
      + (if e.events then EventItems(v.events, v.Ref(), view) else [])
      + (if e.promotions then PromotionItems(v.promotions, v.Ref(), view) else [])
  }

  /**
   * The `data.forEach` flattening: the venues' entries in fetch order, or the first
   * error. The only error is the missing map-view location, so list view never fails.
   */
  function Flatten(venues: seq<Venue>, e: Emission, view: View): (r: Result<seq<DiscoveryItem>>)
    ensures r.Failure? ==> r.message == NullLocation
    ensures view == ListView ==> r.Success?
  {
    if venues == [] then Success([])
    else
      match Flatten(venues[..|venues| - 1], e, view)
      case Failure(m) => Failure(m)
      case Success(items) =>
        match VenueEntries(venues[|venues| - 1], e, view)
        case Failure(m) => Failure(m)
        case Success(more) => Success(items + more)
  }

  // ---------------------------------------------------------------------------
  // What the discovery read selects
  // ---------------------------------------------------------------------------

  /** The discovery read's nested event select has no `location`. */
  function MainEventRow(event: Event): Event { event.(location := None) }

  /** The discovery read's nested promotion select has neither `price` nor `location`. */
  function MainPromotionRow(promotion: Promotion): Promotion { promotion.(price := None, location := None) }

  /** A stored venue as the discovery read returns it, its events and promotions projected. */
  function MainRow(v: Venue): Venue
  {
    v.(events := seq(|v.events|, i requires 0 <= i < |v.events| => MainEventRow(v.events[i])),
       promotions := seq(|v.promotions|, i requires 0 <= i < |v.promotions| => MainPromotionRow(v.promotions[i])))
  }

  /** The venues the store matched, as the discovery read selects them. */
  function MainRows(venues: seq<Venue>): seq<Venue>
  {
    seq(|venues|, i requires 0 <= i < |venues| => MainRow(venues[i]))
  }

  /**
   * `fetchDiscoveryData`: the checks, the query, the store read and the flattening.
   * In the model, only the geometry checks and the map-view location fail, so a list-view
   * request with well-formed coordinates always succeeds (a rejected read is not modelled).
   */
  function DiscoveryData(f: Filters, nearestCity: Option<int>, now: int, store: VenueWhere -> seq<Venue>)
    : (r: Result<seq<DiscoveryItem>>)
    ensures GeometryError(f).Some? ==> r == Failure(GeometryError(f).value)
    ensures r.Failure? ==> r.message == BoundsRequired || r.message == CoordsRequired
                           || (f.view == MapView && r.message == NullLocation)
    ensures f.view == ListView && GeometryOk(f) ==> r.Success?
  {
    match GeometryError(f)
    case Some(message) => Failure(message)
    case None => Flatten(MainRows(store(VenueQuery(f, nearestCity, now))), EmissionOf(ActivityOf(f)), f.view)
  }

  // ---------------------------------------------------------------------------
  // fetchDiscoveryData, imperatively
  // ---------------------------------------------------------------------------

  /** The `forEach` over one venue's events, pushing one entry per event. */
  method PushEvents(results: seq<DiscoveryItem>, events: seq<Event>, venue: VenueRef, view: View)
    returns (out: seq<DiscoveryItem>)
    requires view == MapView ==> venue.location.Some?
    ensures out == results + EventItems(events, venue, view)
  {
    out := results;
    for j := 0 to |events|
      invariant out == results + EventItems(events[..j], venue, view)
    {
      EventItemsSnoc(events, j, venue, view);
      out := out + [EventItem(events[j], venue, view)];
    }
    assert events[..|events|] == events;
  }

  /** One more event appends its entry. */
  lemma {:induction false} EventItemsSnoc(events: seq<Event>, j: nat, venue: VenueRef, view: View)
    requires view == MapView ==> venue.location.Some?
    requires j < |events|
    ensures EventItems(events[..j + 1], venue, view) == EventItems(events[..j], venue, view) + [EventItem(events[j], venue, view)]
  {
    assert events[..j + 1][..j] == events[..j];
  }

  /** The `forEach` over one venue's promotions. */
  method PushPromotions(results: seq<DiscoveryItem>, promotions: seq<Promotion>, venue: VenueRef, view: View)
    returns (out: seq<DiscoveryItem>)
    requires view == MapView ==> venue.location.Some?
    ensures out == results + PromotionItems(promotions, venue, view)
  {
    out := results;
    for j := 0 to |promotions|
      invariant out == results + PromotionItems(promotions[..j], venue, view)
    {
      PromotionItemsSnoc(promotions, j, venue, view);
      out := out + [PromotionItem(promotions[j], venue, view)];
    }
    assert promotions[..|promotions|] == promotions;
  }

  /** One more promotion appends its entry. */
  lemma {:induction false} PromotionItemsSnoc(promotions: seq<Promotion>, j: nat, venue: VenueRef, view: View)
    requires view == MapView ==> venue.location.Some?
    requires j < |promotions|
    ensures PromotionItems(promotions[..j + 1], venue, view) == PromotionItems(promotions[..j], venue, view) + [PromotionItem(promotions[j], venue, view)]
  {
    assert promotions[..j + 1][..j] == promotions[..j];
  }

  /** The body of `data.forEach((v) => …)` for one venue. */
  method PushVenue(results: seq<DiscoveryItem>, v: Venue, e: Emission, view: View)
    returns (out: Result<seq<DiscoveryItem>>)
    ensures VenueEntries(v, e, view).Failure? ==> out == Failure(NullLocation)
    ensures VenueEntries(v, e, view).Success? ==> out == Success(results + VenueEntries(v, e, view).value)
  {
    if MapFails(v, e, view) {
      return Failure(NullLocation);
    }
    if view == MapView && v.location.None? {
      assert results + [] == results;
      return Success(results);
    }
    var acc := PushParts(results, v, e, view);
    out := Success(acc);
  }

  /** The three pushes for a venue whose location the view can use. */
  method PushParts(results: seq<DiscoveryItem>, v: Venue, e: Emission, view: View) returns (acc: seq<DiscoveryItem>)
    requires view == MapView ==> v.location.Some?
    ensures acc == results + VenueParts(v, e, view)
  {
    var venuePart: seq<DiscoveryItem> := if e.venue then [VenueItem(v, view)] else [];
    acc := results + venuePart;
    var eventPart: seq<DiscoveryItem> := [];
    if e.events {
      eventPart := PushEvents(eventPart, v.events, v.Ref(), view);
      assert eventPart == EventItems(v.events, v.Ref(), view);
    }
    var promotionPart: seq<DiscoveryItem> := [];
    if e.promotions {
      promotionPart := PushPromotions(promotionPart, v.promotions, v.Ref(), view);
      assert promotionPart == PromotionItems(v.promotions, v.Ref(), view);
    }
    assert VenueParts(v, e, view) == venuePart + eventPart + promotionPart;
    ConcatAssoc(results, venuePart, eventPart, promotionPart);
    acc := acc + eventPart + promotionPart;
  }

  lemma {:induction false} ConcatAssoc<T>(a: seq<T>, b: seq<T>, c: seq<T>, d: seq<T>)
    ensures a + b + c + d == a + (b + c + d)
  {
  }

  /** The part of `fetchDiscoveryData` that builds `venueQuery`, once the geometry is known to be there. */
  method BuildVenueQuery(filters: Filters, nearestCity: Option<int>, now: int)
    returns (venueQuery: VenueWhere, activity: Activity)
    requires GeometryOk(filters)
    ensures venueQuery == VenueQuery(filters, nearestCity, now)
    ensures activity == ActivityOf(filters)
  {
    var venuesWhere := CreateVenueWhere(filters);
    var eventsWhere := CreateEventWhere(filters);
    var promotionsWhere := CreatePromotionWhere(filters);
    var hasVenueFilters := venuesWhere.KeyCount() > 0;
    var hasEventFilters := eventsWhere.KeyCount() > 0;
    var hasPromotionFilters := promotionsWhere.KeyCount() > 0;
    activity := Activity(hasVenueFilters, hasEventFilters, hasPromotionFilters);

    venueQuery := EmptyVenueWhere;
    var locations := filters.locations;
    if filters.view == MapView {
      venueQuery := venueQuery.(location := Some(BoundsBox(filters.bounds.value)));
    } else {
      var userLat, userLng := filters.coords.value[0], filters.coords.value[1];
      if locations.None? && userLat != 0.0 && userLng != 0.0 {
        if nearestCity.Some? {
          locations := Some([nearestCity.value]);
        }
      }
      if locations.Some? && |locations.value| > 0 {
        venueQuery := venueQuery.(location := Some(CityIn(locations.value)));
      }
    }
    assert venueQuery == EmptyVenueWhere.(location := BaseLocation(filters, nearestCity));

    if hasVenueFilters {
      venueQuery := Assign(venueQuery, venuesWhere);
    }

    var window := Window(filters, now);
    var nestedConditions: seq<Nested> := [];
    if hasEventFilters {
      nestedConditions := nestedConditions + [EventsNested(SomeEventMatching(eventsWhere, window))];
    }
    if hasPromotionFilters {
      nestedConditions := nestedConditions + [PromotionsNested(SomePromotionMatching(promotionsWhere, window))];
    }
    assert nestedConditions == NestedConditions(filters, now);

    if |nestedConditions| == 1 {
      venueQuery := AssignNested(venueQuery, nestedConditions[0]);
    } else if |nestedConditions| > 1 {
      venueQuery := venueQuery.(or := Some(AnyOf(nestedConditions)));
    }
  }

  /** The `data.forEach` over the fetched venues; a thrown mapper error ends it. */
  method FlattenVenues(data: seq<Venue>, emission: Emission, view: View) returns (r: Result<seq<DiscoveryItem>>)
    ensures r == Flatten(data, emission, view)
  {
    var results: seq<DiscoveryItem> := [];
    for i := 0 to |data|
      invariant Flatten(data[..i], emission, view) == Success(results)
    {
      assert data[..i + 1][..i] == data[..i];
      var next := PushVenue(results, data[i], emission, view);
      if next.Failure? {
        assert Flatten(data[..i + 1], emission, view) == Failure(NullLocation);
        FlattenFailureSticks(data, i + 1, emission, view);
        assert data[..|data|] == data;
        return next;
      }
      results := next.value;
    }
    assert data[..|data|] == data;
    return Success(results);
  }

  /** `fetchDiscoveryData`. */
  method FetchDiscoveryData(filters: Filters, nearestCity: Option<int>, now: int, store: VenueWhere -> seq<Venue>)
    returns (r: Result<seq<DiscoveryItem>>)
    ensures r == DiscoveryData(filters, nearestCity, now, store)
  {
    var view := filters.view;
    if view == MapView && (filters.bounds.None? || |filters.bounds.value| != 4) {
      return Failure(BoundsRequired);
    } else if view == ListView && (filters.coords.None? || |filters.coords.value| != 2) {
      return Failure(CoordsRequired);
    }
    var venueQuery, activity := BuildVenueQuery(filters, nearestCity, now);
    var data := MainRows(store(venueQuery));
    r := FlattenVenues(data, EmissionOf(activity), view);
  }

  /** Once a prefix of the venues fails, the whole flattening fails with the same error. */
  lemma {:induction false} FlattenFailureSticks(venues: seq<Venue>, k: nat, e: Emission, view: View)
    requires k <= |venues| && Flatten(venues[..k], e, view).Failure?
    ensures Flatten(venues, e, view) == Flatten(venues[..k], e, view)
    decreases |venues| - k
  {
    if k < |venues| {
      assert venues[..k + 1][..k] == venues[..k];
      FlattenFailureSticks(venues, k + 1, e, view);
    } else {
      assert venues[..k] == venues;
    }
  }

  // ---------------------------------------------------------------------------
  // Properties of the flattening
  // ---------------------------------------------------------------------------

  /** Every entry of a venue is a marker in map view and a feed card in list view. */
  lemma {:induction false} EntriesMatchView(v: Venue, e: Emission, view: View)
    requires VenueEntries(v, e, view).Success?
    ensures forall x :: x in VenueEntries(v, e, view).value ==> (x.MarkerItem? <==> view == MapView)
  {
    if !(view == MapView && v.location.None?) {
      EventItemsMatchView(v.events, v.Ref(), view);
      PromotionItemsMatchView(v.promotions, v.Ref(), view);
    }
  }

  lemma {:induction false} EventItemsMatchView(events: seq<Event>, venue: VenueRef, view: View)
    requires view == MapView ==> venue.location.Some?
    ensures forall x :: x in EventItems(events, venue, view) ==> (x.MarkerItem? <==> view == MapView)
  {
    if events != [] {
      EventItemsMatchView(events[..|events| - 1], venue, view);
    }
  }

  lemma {:induction false} PromotionItemsMatchView(promotions: seq<Promotion>, venue: VenueRef, view: View)
    requires view == MapView ==> venue.location.Some?
    ensures forall x :: x in PromotionItems(promotions, venue, view) ==> (x.MarkerItem? <==> view == MapView)
  {
    if promotions != [] {
      PromotionItemsMatchView(promotions[..|promotions| - 1], venue, view);
    }
  }

  /** Map view yields only markers and list view only feed cards. */
  lemma {:induction false} FlattenMatchesView(venues: seq<Venue>, e: Emission, view: View)
    requires Flatten(venues, e, view).Success?
    ensures forall x :: x in Flatten(venues, e, view).value ==> (x.MarkerItem? <==> view == MapView)
  {
    if venues != [] {
      var init := venues[..|venues| - 1];
      FlattenMatchesView(init, e, view);
      EntriesMatchView(venues[|venues| - 1], e, view);
    }
  }

  /** A venue lies inside a box when it has a location whose coordinates the box contains. */
  predicate InsideBox(v: Venue, box: LocationCond)
    requires box.InBox?
  {
    v.location.Some? && box.minLat <= v.location.value.lat <= box.maxLat
      && box.minLng <= v.location.value.lng <= box.maxLng
  }

  /** A marker lies inside a box. */
  predicate MarkerInBox(m: Marker, box: LocationCond)
    requires box.InBox?
  {
    box.minLat <= m.lat <= box.maxLat && box.minLng <= m.lng <= box.maxLng
  }

  lemma {:induction false} EventMarkersAtVenue(events: seq<Event>, v: Venue, box: LocationCond)
    requires box.InBox? && InsideBox(v, box)
    ensures forall x :: x in EventItems(events, v.Ref(), MapView) ==> x.MarkerItem? && MarkerInBox(x.marker, box)
  {
    if events != [] {
      EventMarkersAtVenue(events[..|events| - 1], v, box);
    }
  }

  lemma {:induction false} PromotionMarkersAtVenue(promotions: seq<Promotion>, v: Venue, box: LocationCond)
    requires box.InBox? && InsideBox(v, box)
    ensures forall x :: x in PromotionItems(promotions, v.Ref(), MapView) ==> x.MarkerItem? && MarkerInBox(x.marker, box)
  {
    if promotions != [] {
      PromotionMarkersAtVenue(promotions[..|promotions| - 1], v, box);
    }
  }

  /**
   * When the store honours the box (every venue it returns lies inside), map view
   * succeeds and every marker, including those of events and promotions, lies inside.
   */
  lemma {:induction false} MapMarkersInsideBox(venues: seq<Venue>, e: Emission, box: LocationCond)
    requires box.InBox?
    requires forall i :: 0 <= i < |venues| ==> InsideBox(venues[i], box)
    ensures Flatten(venues, e, MapView).Success?
    ensures forall x :: x in Flatten(venues, e, MapView).value ==> x.MarkerItem? && MarkerInBox(x.marker, box)
  {
    if venues != [] {
      var init := venues[..|venues| - 1];
      var v := venues[|venues| - 1];
      assert forall i :: 0 <= i < |init| ==> init[i] == venues[i];
      MapMarkersInsideBox(init, e, box);
      EventMarkersAtVenue(v.events, v, box);
      PromotionMarkersAtVenue(v.promotions, v, box);
    }
  }

  /**
   * With no active filter, a list-view venue with two events and one promotion yields
   * four cards: the venue, its two events and its promotion, in that order.
   */
  lemma {:induction false} NoFiltersEmitsEverything(v: Venue)
    requires |v.events| == 2 && |v.promotions| == 1
    ensures var r := Flatten([v], EmissionOf(Activity(false, false, false)), ListView);
      && r.Success? && |r.value| == 4
      && r.value == [CardItem(VenueToFeedItem(v)), CardItem(EventToFeedItem(v.events[0], v.Ref())),
                     CardItem(EventToFeedItem(v.events[1], v.Ref())),
                     CardItem(PromotionToFeedItem(v.promotions[0], v.Ref()))]
  {
    var ref := v.Ref();
    var e := EmissionOf(Activity(false, false, false));
    assert e == Emission(true, true, true);
    FlattenOne(v, e, ListView);
    var ev, pr := EventItems(v.events, ref, ListView), PromotionItems(v.promotions, ref, ListView);
    var parts := [VenueItem(v, ListView)] + ev + pr;
    assert VenueParts(v, e, ListView) == parts;
    assert |parts| == 4 && parts[1] == ev[0] && parts[2] == ev[1] && parts[3] == pr[0];
  }

  /** A single venue flattens to its own entries. */
  lemma FlattenOne(v: Venue, e: Emission, view: View)
    ensures Flatten([v], e, view) == VenueEntries(v, e, view)
  {
    assert [v][..0] == [];
    if VenueEntries(v, e, view).Success? {
      assert [] + VenueEntries(v, e, view).value == VenueEntries(v, e, view).value;
    }
  }

  /**
   * With only event filters active, a venue contributes its events and nothing else;
   * with only venue filters active, only itself.
   */
  lemma {:induction false} FiltersSelectParts(v: Venue, view: View)
    requires view == MapView ==> v.location.Some?
    ensures VenueEntries(v, EmissionOf(Activity(false, true, false)), view)
      == Success(EventItems(v.events, v.Ref(), view))
    ensures VenueEntries(v, EmissionOf(Activity(true, false, false)), view) == Success([VenueItem(v, view)])
  {
    var events := EventItems(v.events, v.Ref(), view);
    assert [] + events + [] == events;
    assert [VenueItem(v, view)] + [] + [] == [VenueItem(v, view)];
  }

  /** The flattening fails exactly when some venue would make a map-view mapper read a missing location. */
  lemma {:induction false} FlattenFailsIff(venues: seq<Venue>, e: Emission, view: View)
    ensures Flatten(venues, e, view).Failure? <==> exists i :: 0 <= i < |venues| && MapFails(venues[i], e, view)
  {
    if venues != [] {
      var init, last := venues[..|venues| - 1], |venues| - 1;
      FlattenFailsIff(init, e, view);
      assert forall i :: 0 <= i < |init| ==> init[i] == venues[i];
      if Flatten(init, e, view).Failure? {
        var i :| 0 <= i < |init| && MapFails(init[i], e, view);
        assert MapFails(venues[i], e, view);
      } else if MapFails(venues[last], e, view) {
        assert 0 <= last < |venues|;
      } else {
        assert forall i :: 0 <= i < |venues| ==> !MapFails(venues[i], e, view) by {
          forall i | 0 <= i < |venues| ensures !MapFails(venues[i], e, view) {
            if i < last { assert venues[i] == init[i]; }
          }
        }
      }
    }
  }

  /** Every promotion of the venue was read without a price. */
  predicate PromotionsUnpriced(v: Venue)
  {
    forall j :: 0 <= j < |v.promotions| ==> v.promotions[j].price.None?
  }

  /** An entry is not a promotion card that shows a price. */
  predicate Unpriced(x: DiscoveryItem)
  {
    x.CardItem? && x.card.kind == PromotionKind ==> x.card.price.None?
  }

  /** A venue whose promotions were read without a price contributes no priced promotion card. */
  lemma EntriesUnpriced(v: Venue, e: Emission, view: View)
    requires PromotionsUnpriced(v) && VenueEntries(v, e, view).Success?
    ensures forall x :: x in VenueEntries(v, e, view).value ==> Unpriced(x)
  {
    if !(view == MapView && v.location.None?) {
      var events, promotions := EventItems(v.events, v.Ref(), view), PromotionItems(v.promotions, v.Ref(), view);
      assert forall i :: 0 <= i < |events| ==> Unpriced(events[i]);
      assert forall i :: 0 <= i < |promotions| ==> Unpriced(promotions[i]);
      assert Unpriced(VenueItem(v, view));
    }
  }

  /** Flattening venues whose promotions carry no price yields no priced promotion card. */
  lemma {:induction false} FlattenUnpriced(venues: seq<Venue>, e: Emission, view: View)
    requires forall i :: 0 <= i < |venues| ==> PromotionsUnpriced(venues[i])
    requires Flatten(venues, e, view).Success?
    ensures forall x :: x in Flatten(venues, e, view).value ==> Unpriced(x)
  {
    if venues != [] {
      var init := venues[..|venues| - 1];
      assert forall i :: 0 <= i < |init| ==> init[i] == venues[i];
      FlattenUnpriced(init, e, view);
      EntriesUnpriced(venues[|venues| - 1], e, view);
    }
  }

  /**
   * The discovery read selects no promotion price, so no promotion card of the
   * discovery answer shows one, whatever the store holds.
   */
  lemma {:induction false} DiscoveryPromotionsUnpriced(f: Filters, nearestCity: Option<int>, now: int,
                                                      store: VenueWhere -> seq<Venue>)
    requires DiscoveryData(f, nearestCity, now, store).Success?
    ensures forall x :: x in DiscoveryData(f, nearestCity, now, store).value ==> Unpriced(x)
  {
    var venues := MainRows(store(VenueQuery(f, nearestCity, now)));
    assert forall i :: 0 <= i < |venues| ==> PromotionsUnpriced(venues[i]);
    FlattenUnpriced(venues, EmissionOf(ActivityOf(f)), f.view);
  }

  /**
   * The discovery read selects no event location, so every list-view event card it
   * yields is located exactly where its venue is (or nowhere, with the venue).
   */
  lemma {:induction false} MainEventCardsAtVenue(v: Venue)
    ensures forall x :: x in EventItems(MainRow(v).events, MainRow(v).Ref(), ListView) ==>
      x.CardItem? && x.card.location == v.location
  {
    var items := EventItems(MainRow(v).events, MainRow(v).Ref(), ListView);
    assert forall i :: 0 <= i < |items| ==> items[i].CardItem? && items[i].card.location == v.location;
  }

  // ---------------------------------------------------------------------------
  // Fetch by ids and the route handler
  // ---------------------------------------------------------------------------

  /** The reads by id: venues, events with their venue's name, promotions likewise. */
  datatype IdStore = IdStore(
    venues: seq<int> -> seq<Venue>,
    events: seq<int> -> seq<(Event, string)>,
    promotions: seq<int> -> seq<(Promotion, string)>)

  /** By id, `event.venue` selects only the name, so the card falls back to the entity's location. */
  function NameOnly(name: string): VenueRef { VenueRef(name, None) }

  /** The by-id event select reads `price` and `eventType` but not `startDate`. */
  function ByIdEventRow(row: (Event, string)): (Event, string) { (row.0.(startDate := None), row.1) }

  /** The by-id promotion select reads `promotionType` but neither `price` nor `startDate`. */
  function ByIdPromotionRow(row: (Promotion, string)): (Promotion, string)
  {
    (row.0.(price := None, startDate := None), row.1)
  }

  /** The events read by id, as the by-id select returns them. */
  function ByIdEvents(rows: seq<(Event, string)>): seq<(Event, string)>
  {
    seq(|rows|, i requires 0 <= i < |rows| => ByIdEventRow(rows[i]))
  }

  /** The promotions read by id, as the by-id select returns them. */
  function ByIdPromotions(rows: seq<(Promotion, string)>): seq<(Promotion, string)>
  {
    seq(|rows|, i requires 0 <= i < |rows| => ByIdPromotionRow(rows[i]))
  }

  /** One venue card per venue (in read order: VenueCardsInOrder). */
  function VenueCards(venues: seq<Venue>): (r: seq<FeedItem>)
    ensures |r| == |venues|
  {
    if venues == [] then [] else VenueCards(venues[..|venues| - 1]) + [VenueToFeedItem(venues[|venues| - 1])]
  }

  /** One card per event, each with only its venue's name (in read order: EventCardsInOrder). */
  function EventCards(events: seq<(Event, string)>): (r: seq<FeedItem>)
    ensures |r| == |events|
  {
    if events == [] then []
    else
      var last := events[|events| - 1];
      EventCards(events[..|events| - 1]) + [EventToFeedItem(last.0, NameOnly(last.1))]
  }

  /** One card per promotion, each with only its venue's name (in read order: PromotionCardsInOrder). */
  function PromotionCards(promotions: seq<(Promotion, string)>): (r: seq<FeedItem>)
    ensures |r| == |promotions|
  {
    if promotions == [] then []
    else
      var last := promotions[|promotions| - 1];
      PromotionCards(promotions[..|promotions| - 1]) + [PromotionToFeedItem(last.0, NameOnly(last.1))]
  }

  /** The venue cards are the venues' cards, one per venue in read order. */
  lemma {:induction false} VenueCardsInOrder(venues: seq<Venue>)
    ensures forall i :: 0 <= i < |venues| ==> VenueCards(venues)[i] == VenueToFeedItem(venues[i])
  {
    if venues != [] {
      var init := venues[..|venues| - 1];
      VenueCardsInOrder(init);
      assert forall i :: 0 <= i < |init| ==> init[i] == venues[i];
    }
  }

  /** The event cards are the events' cards at a name-only venue, in read order. */
  lemma {:induction false} EventCardsInOrder(events: seq<(Event, string)>)
    ensures forall i :: 0 <= i < |events| ==> EventCards(events)[i] == EventToFeedItem(events[i].0, NameOnly(events[i].1))
  {
    if events != [] {
      var init := events[..|events| - 1];
      EventCardsInOrder(init);
      assert forall i :: 0 <= i < |init| ==> init[i] == events[i];
    }
  }

  /** The promotion cards are the promotions' cards at a name-only venue, in read order. */
  lemma {:induction false} PromotionCardsInOrder(promotions: seq<(Promotion, string)>)
    ensures forall i :: 0 <= i < |promotions| ==>
      PromotionCards(promotions)[i] == PromotionToFeedItem(promotions[i].0, NameOnly(promotions[i].1))
  {
    if promotions != [] {
      var init := promotions[..|promotions| - 1];
      PromotionCardsInOrder(init);
      assert forall i :: 0 <= i < |init| ==> init[i] == promotions[i];
    }
  }

  /** How many rows the three reads by id return: a list that is absent or empty is not read. */
  function IdCounts(venueIds: Option<seq<int>>, promotionIds: Option<seq<int>>, eventIds: Option<seq<int>>,
                    ids: IdStore): (nat, nat, nat)
  {
    (if HasItems(venueIds) then |ids.venues(venueIds.value)| else 0,
     if HasItems(eventIds) then |ids.events(eventIds.value)| else 0,
     if HasItems(promotionIds) then |ids.promotions(promotionIds.value)| else 0)
  }

  /**
   * `fetchDataByIds`: venue cards, then event cards, then promotion cards, each only
   * for a non-empty list, one card per row read.
   */
  function DataByIds(venueIds: Option<seq<int>>, promotionIds: Option<seq<int>>, eventIds: Option<seq<int>>,
                     ids: IdStore): (r: seq<FeedItem>)
    ensures var (nv, ne, np) := IdCounts(venueIds, promotionIds, eventIds, ids); |r| == nv + ne + np
  {
    (if HasItems(venueIds) then VenueCards(ids.venues(venueIds.value)) else [])
    + (if HasItems(eventIds) then EventCards(ByIdEvents(ids.events(eventIds.value))) else [])
    + (if HasItems(promotionIds) then PromotionCards(ByIdPromotions(ids.promotions(promotionIds.value))) else [])
  }

  /**
   * The by-id answer is laid out in three blocks: venue cards, then event cards (shown
   * as performers when an event has exactly one), then promotion cards.
   */
  lemma {:induction false} DataByIdsLayout(venueIds: Option<seq<int>>, promotionIds: Option<seq<int>>,
                                          eventIds: Option<seq<int>>, ids: IdStore)
    ensures var r, n := DataByIds(venueIds, promotionIds, eventIds, ids), IdCounts(venueIds, promotionIds, eventIds, ids);
      var (nv, ne) := (n.0, n.1);
      && (forall i :: 0 <= i < nv ==> r[i].kind == VenueKind)
      && (forall i :: nv <= i < nv + ne ==> r[i].kind == EventKind || r[i].kind == PerformerKind)
      && (forall i :: nv + ne <= i < |r| ==> r[i].kind == PromotionKind)
  {
    var r, n := DataByIds(venueIds, promotionIds, eventIds, ids), IdCounts(venueIds, promotionIds, eventIds, ids);
    var nv, ne := n.0, n.1;
    var vc := if HasItems(venueIds) then VenueCards(ids.venues(venueIds.value)) else [];
    var ec := if HasItems(eventIds) then EventCards(ByIdEvents(ids.events(eventIds.value))) else [];
    var pc := if HasItems(promotionIds) then PromotionCards(ByIdPromotions(ids.promotions(promotionIds.value))) else [];
    if HasItems(venueIds) { VenueCardsInOrder(ids.venues(venueIds.value)); }
    if HasItems(eventIds) { EventCardsInOrder(ByIdEvents(ids.events(eventIds.value))); }
    if HasItems(promotionIds) { PromotionCardsInOrder(ByIdPromotions(ids.promotions(promotionIds.value))); }
    assert forall i :: 0 <= i < |vc| ==> vc[i].kind == VenueKind;
    assert forall i :: 0 <= i < |ec| ==> ec[i].kind == EventKind || ec[i].kind == PerformerKind;
    assert forall i :: 0 <= i < |pc| ==> pc[i].kind == PromotionKind;
    BlockKinds(vc, ec, pc);
  }

  /** Three blocks of cards, each of one kind, keep their kinds once concatenated. */
  lemma BlockKinds(vc: seq<FeedItem>, ec: seq<FeedItem>, pc: seq<FeedItem>)
    requires forall i :: 0 <= i < |vc| ==> vc[i].kind == VenueKind
    requires forall i :: 0 <= i < |ec| ==> ec[i].kind == EventKind || ec[i].kind == PerformerKind
    requires forall i :: 0 <= i < |pc| ==> pc[i].kind == PromotionKind
    ensures var r := vc + ec + pc;
      && (forall i :: 0 <= i < |vc| ==> r[i].kind == VenueKind)
      && (forall i :: |vc| <= i < |vc| + |ec| ==> r[i].kind == EventKind || r[i].kind == PerformerKind)
      && (forall i :: |vc| + |ec| <= i < |r| ==> r[i].kind == PromotionKind)
  {
    var r := vc + ec + pc;
    assert forall i :: |vc| <= i < |vc| + |ec| ==> r[i] == ec[i - |vc|];
    assert forall i :: |vc| + |ec| <= i < |r| ==> r[i] == pc[i - |vc| - |ec|];
  }

  /**
   * What the by-id selects leave out: event cards read by id carry no date, and
   * promotion cards read by id carry neither a date nor a price.
   */
  lemma {:induction false} ByIdCardsUndated(events: seq<(Event, string)>, promotions: seq<(Promotion, string)>)
    ensures forall c :: c in EventCards(ByIdEvents(events)) ==> c.date.None?
    ensures forall c :: c in PromotionCards(ByIdPromotions(promotions)) ==> c.date.None? && c.price.None?
  {
    var ec, pc := EventCards(ByIdEvents(events)), PromotionCards(ByIdPromotions(promotions));
    EventCardsInOrder(ByIdEvents(events));
    PromotionCardsInOrder(ByIdPromotions(promotions));
    assert forall i :: 0 <= i < |ec| ==> ec[i].date == ByIdEvents(events)[i].0.startDate;
    assert forall i :: 0 <= i < |pc| ==> pc[i].date.None? && pc[i].price.None?;
  }

  /** `fetchDataByIds`, pushing into `feedItems`. */
  method FetchDataByIds(venueIds: Option<seq<int>>, promotionIds: Option<seq<int>>, eventIds: Option<seq<int>>,
                        ids: IdStore) returns (feedItems: seq<FeedItem>)
    ensures feedItems == DataByIds(venueIds, promotionIds, eventIds, ids)
  {
    feedItems := [];
    ghost var venuePart, eventPart, promotionPart := [], [], [];
    if venueIds.Some? && |venueIds.value| > 0 {
      feedItems := PushVenueCards(feedItems, ids.venues(venueIds.value));
      venuePart := VenueCards(ids.venues(venueIds.value));
      assert feedItems == venuePart;
    }
    if eventIds.Some? && |eventIds.value| > 0 {
      feedItems := PushEventCards(feedItems, ByIdEvents(ids.events(eventIds.value)));
      eventPart := EventCards(ByIdEvents(ids.events(eventIds.value)));
    } else {
      assert feedItems == venuePart + eventPart;
    }
    if promotionIds.Some? && |promotionIds.value| > 0 {
      feedItems := PushPromotionCards(feedItems, ByIdPromotions(ids.promotions(promotionIds.value)));
      promotionPart := PromotionCards(ByIdPromotions(ids.promotions(promotionIds.value)));
    } else {
      assert feedItems == venuePart + eventPart + promotionPart;
    }
    assert DataByIds(venueIds, promotionIds, eventIds, ids) == venuePart + eventPart + promotionPart;
  }

  /** The loop over the venues read by id. */
  method PushVenueCards(feedItems: seq<FeedItem>, venues: seq<Venue>) returns (out: seq<FeedItem>)
    ensures out == feedItems + VenueCards(venues)
  {
    out := feedItems;
    for i := 0 to |venues|
      invariant out == feedItems + VenueCards(venues[..i])
    {
      assert venues[..i + 1][..i] == venues[..i];
      out := out + [VenueToFeedItem(venues[i])];
    }
    assert venues[..|venues|] == venues;
  }

  /** The loop over the events read by id. */
  method PushEventCards(feedItems: seq<FeedItem>, events: seq<(Event, string)>) returns (out: seq<FeedItem>)
    ensures out == feedItems + EventCards(events)
  {
    out := feedItems;
    for i := 0 to |events|
      invariant out == feedItems + EventCards(events[..i])
    {
      assert events[..i + 1][..i] == events[..i];
      out := out + [EventToFeedItem(events[i].0, NameOnly(events[i].1))];
    }
    assert events[..|events|] == events;
  }

  /** The loop over the promotions read by id. */
  method PushPromotionCards(feedItems: seq<FeedItem>, promotions: seq<(Promotion, string)>) returns (out: seq<FeedItem>)
    ensures out == feedItems + PromotionCards(promotions)
  {
    out := feedItems;
    for i := 0 to |promotions|
      invariant out == feedItems + PromotionCards(promotions[..i])
    {
      assert promotions[..i + 1][..i] == promotions[..i];
      out := out + [PromotionToFeedItem(promotions[i].0, NameOnly(promotions[i].1))];
    }
    assert promotions[..|promotions|] == promotions;
  }

  /** The handler's answer: the data, or a 500 with its error message. */
  datatype Response = Ok(data: seq<DiscoveryItem>) | ServerError(error: string)

  const InternalError := "Internal server error"

  /** Whether any of the three id lists is non-empty. */
  predicate WantsIds(f: Filters)
  {
    HasItems(f.venueIds) || HasItems(f.promotionIds) || HasItems(f.eventIds)
  }

  function Cards(items: seq<FeedItem>): (r: seq<DiscoveryItem>)
    ensures |r| == |items|
    ensures forall i :: 0 <= i < |r| ==> r[i] == CardItem(items[i])
  {
    seq(|items|, i requires 0 <= i < |items| => CardItem(items[i]))
  }

  /**
   * What the `/` handler answers: in the model the by-id read never fails (a rejected read
   * is not modelled), and every failure of the discovery read becomes the same 500.
   */
  function DiscoverResponse(f: Filters, nearestCity: Option<int>, now: int, store: VenueWhere -> seq<Venue>,
                            ids: IdStore): (r: Response)
    ensures WantsIds(f) ==> r.Ok?
    ensures r.ServerError? <==> !WantsIds(f) && DiscoveryData(f, nearestCity, now, store).Failure?
    ensures r.ServerError? ==> r.error == InternalError
  {
    if WantsIds(f) then Ok(Cards(DataByIds(f.venueIds, f.promotionIds, f.eventIds, ids)))
    else
      match DiscoveryData(f, nearestCity, now, store)
      case Success(items) => Ok(items)
      case Failure(_) => ServerError(InternalError)
  }

  /** The `/` handler. */
  method Discover(filters: Filters, nearestCity: Option<int>, now: int, store: VenueWhere -> seq<Venue>, ids: IdStore)
    returns (response: Response)
    ensures response == DiscoverResponse(filters, nearestCity, now, store, ids)
  {
    if (filters.venueIds.Some? && |filters.venueIds.value| > 0)
      || (filters.promotionIds.Some? && |filters.promotionIds.value| > 0)
      || (filters.eventIds.Some? && |filters.eventIds.value| > 0)
    {
      var feedItems := FetchDataByIds(filters.venueIds, filters.promotionIds, filters.eventIds, ids);
      return Ok(Cards(feedItems));
    }
    var results := FetchDiscoveryData(filters, nearestCity, now, store);
    if results.Failure? {
      return ServerError(InternalError);
    }
    return Ok(results.value);
  }

  /**
   * The direct-id bypass: with any non-empty id list, the answer is the cards fetched
   * by id, whatever the other filters, the view, the geometry or the store say.
   */
  lemma {:induction false} IdBypass(f: Filters, g: Filters, nearestCity: Option<int>, now: int,
                                   store: VenueWhere -> seq<Venue>, ids: IdStore)
    requires WantsIds(f)
    requires g.venueIds == f.venueIds && g.promotionIds == f.promotionIds && g.eventIds == f.eventIds
    ensures DiscoverResponse(f, nearestCity, now, store, ids)
      == DiscoverResponse(g, None, 0, _ => [], ids)
    ensures DiscoverResponse(f, nearestCity, now, store, ids).Ok?
  {
  }

  /** A geometry error is answered with a 500 whatever the store holds: the check precedes every read. */
  lemma {:induction false} GeometryCheckedFirst(f: Filters, nearestCity: Option<int>, now: int,
                                               store: VenueWhere -> seq<Venue>, ids: IdStore)
    requires !WantsIds(f) && !GeometryOk(f)
    ensures DiscoveryData(f, nearestCity, now, store) == Failure(GeometryError(f).value)
    ensures DiscoverResponse(f, nearestCity, now, store, ids) == ServerError(InternalError)
  {
  }
}
