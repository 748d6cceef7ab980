/**
 * The entity projections of src/shared/mappers.ts: a map marker or a feed card per
 * venue, event and promotion. The records below hold exactly the fields the mappers read;
 * a field that a read's select leaves out is `None`, the `undefined` the mapper then copies.
 */
module Mappers {
  import opened Wrappers
  import opened Models

  datatype VenueTypeRow = VenueTypeRow(id: int, venueType: string)
  datatype EventTypeRow = EventTypeRow(id: int, eventType: string)
  datatype PromotionTypeRow = PromotionTypeRow(id: int, promotionType: string)

  /** One performer linked to an event (`event.performers[i].performer`). */
  datatype Performer = Performer(id: int, image: Option<string>, name: string)

  datatype Event = Event(
    id: int,
    title: string,
    image: Option<string>,
    price: Option<real>,
    startDate: Option<int>,
    eventType: EventTypeRow,
    location: Option<Location>,
    performers: seq<Performer>)

  datatype Promotion = Promotion(
    id: int,
    title: string,
    image: Option<string>,
    price: Option<real>,
    startDate: Option<int>,
    promotionType: PromotionTypeRow,
    location: Option<Location>)

  /** A venue with its nested events and promotions, as the discovery read returns it. */
  datatype Venue = Venue(
    id: int,
    name: string,
    image: Option<string>,
    venueType: VenueTypeRow,
    location: Option<Location>,
    events: seq<Event>,
    promotions: seq<Promotion>)
  {
    /** The part of the venue the event and promotion mappers read. */
    function Ref(): VenueRef { VenueRef(name, location) }
  }

  /**
   * The `venue` argument of the event and promotion mappers. In the by-id read only
   * `name` is selected, so `location` is then absent.
   */
  datatype VenueRef = VenueRef(name: string, location: Option<Location>)

  /** `mapVenueToMarker`: id, title and coordinates of the venue itself. */
  function VenueToMarker(venue: Venue): (m: Marker)
    requires venue.location.Some?
    ensures m.id == venue.id && m.title == venue.name && m.kind == VenueKind
    ensures m.lat == venue.location.value.lat && m.lng == venue.location.value.lng
  {
    Marker(venue.id, venue.location.value.lat, venue.location.value.lng, venue.name, VenueKind)
  }

  /** `mapEventToMarker`: the event's id and title at its venue's coordinates. */
  function EventToMarker(event: Event, venue: VenueRef): (m: Marker)
    requires venue.location.Some?
    ensures m.id == event.id && m.title == event.title && m.kind == EventKind
    ensures m.lat == venue.location.value.lat && m.lng == venue.location.value.lng
  {
    Marker(event.id, venue.location.value.lat, venue.location.value.lng, event.title, EventKind)
  }

  /** `mapPromotionToMarker`: the promotion's id and title at its venue's coordinates. */
  function PromotionToMarker(promotion: Promotion, venue: VenueRef): (m: Marker)
    requires venue.location.Some?
    ensures m.id == promotion.id && m.title == promotion.title && m.kind == PromotionKind
    ensures m.lat == venue.location.value.lat && m.lng == venue.location.value.lng
  {
    Marker(promotion.id, venue.location.value.lat, venue.location.value.lng, promotion.title, PromotionKind)
  }

  /** `mapVenueToFeedItem`: a venue card with no price, date or venue name. */
  function VenueToFeedItem(venue: Venue): (item: FeedItem)
    ensures item.id == venue.id && item.image == venue.image && item.title == venue.name
    ensures item.price.None? && item.date.None? && item.venueName.None?
    ensures item.subcategory == venue.venueType.venueType && item.kind == VenueKind
    ensures item.location == venue.location
  {
    FeedItem(venue.id, venue.image, venue.name, None, None, None,
             venue.venueType.venueType, VenueKind, venue.location)
  }

  /** The location of an event card: the venue's when it has one, else the event's own. */
  function EventLocation(event: Event, venue: VenueRef): Option<Location>
  {
    if venue.location.Some? then venue.location else event.location
  }

  /**
   * `mapEventToFeedItem`. An event with exactly one performer is shown as that
   * performer: identity, image and title from the performer, everything else from the
   * event. Any other event is shown as itself.
   */
  function EventToFeedItem(event: Event, venue: VenueRef): (item: FeedItem)
    ensures item.price == event.price && item.date == event.startDate
    ensures item.venueName == Some(venue.name) && item.subcategory == event.eventType.eventType
    ensures item.location == (if venue.location.Some? then venue.location else event.location)
    ensures item.kind == PerformerKind <==> |event.performers| == 1
    ensures |event.performers| == 1 ==>
      var p := event.performers[0];
      item.id == p.id && item.image == p.image && item.title == p.name
    ensures |event.performers| != 1 ==>
      item.kind == EventKind && item.id == event.id && item.image == event.image && item.title == event.title
  {
    var location := EventLocation(event, venue);
    if |event.performers| == 1 then
      var performer := event.performers[0];
      FeedItem(performer.id, performer.image, performer.name, event.price, event.startDate,
               Some(venue.name), event.eventType.eventType, PerformerKind, location)
    else
      FeedItem(event.id, event.image, event.title, event.price, event.startDate,
               Some(venue.name), event.eventType.eventType, EventKind, location)
  }

  /** `mapPromotionToFeedItem`: a promotion card, located at the venue when it has a location. */
  function PromotionToFeedItem(promotion: Promotion, venue: VenueRef): (item: FeedItem)
    ensures item.id == promotion.id && item.image == promotion.image && item.title == promotion.title
    ensures item.price == promotion.price && item.date == promotion.startDate
    ensures item.venueName == Some(venue.name)
    ensures item.subcategory == promotion.promotionType.promotionType && item.kind == PromotionKind
    ensures item.location == (if venue.location.Some? then venue.location else promotion.location)
  {
    var location := if venue.location.Some? then venue.location else promotion.location;
    FeedItem(promotion.id, promotion.image, promotion.title, promotion.price, promotion.startDate,
             Some(venue.name), promotion.promotionType.promotionType, PromotionKind, location)
  }

  /** A feed card's location is absent only when neither the venue nor the entity has one. */
  lemma EventLocationFallback(event: Event, venue: VenueRef)
    ensures EventToFeedItem(event, venue).location.None? <==> venue.location.None? && event.location.None?
  {
  }
}
