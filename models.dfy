/** The shared enumerations and output shapes of src/shared/models.ts. */
module Models {
  import opened Wrappers

  /** `SubcategoryType`: the kind tag every marker and feed item carries. */
  datatype SubcategoryType = EventKind | PromotionKind | VenueKind | PerformerKind {

    /** The string the source stores in the `type` field. */
    function Name(): (s: string)
      ensures s in {"event", "promotion", "venue", "performer"}
    {
      match this
      case EventKind => "event"
      case PromotionKind => "promotion"
      case VenueKind => "venue"
      case PerformerKind => "performer"
    }
  }

  /** `EngagementType`: what kind of engagement a metric records. */
  datatype EngagementType = Click | Impression | DwellTime {

    /** The numeric code stored in the metric tables (the values and their distinctness: CodesAreInjective). */
    function Code(): (c: nat)
      ensures c < 3
    {
      match this
      case Click => 0
      case Impression => 1
      case DwellTime => 2
    }
  }

  /** `EngagementSource`: where in the client the engagement happened. */
  datatype EngagementSource = MapSource | ListSource | PageSource {

    /** The numeric code stored in the metric tables (the values and their distinctness: CodesAreInjective). */
    function Code(): (c: nat)
      ensures c < 3
    {
      match this
      case MapSource => 0
      case ListSource => 1
      case PageSource => 2
    }
  }

  /** Both enumerations are read back unambiguously from their codes. */
  lemma CodesAreInjective(a: EngagementType, b: EngagementType, s: EngagementSource, t: EngagementSource)
    ensures a.Code() == b.Code() ==> a == b
    ensures s.Code() == t.Code() ==> s == t
    ensures Click.Code() == 0 && Impression.Code() == 1 && DwellTime.Code() == 2
    ensures MapSource.Code() == 0 && ListSource.Code() == 1 && PageSource.Code() == 2
  {
  }

  /** `LocationDTO`: a stored street location; `cityId` is the administrative region. */
  datatype Location = Location(id: int, lat: real, lng: real, address: string, cityId: int)

  /** `Marker`: the coordinate-only projection used by the map view. */
  datatype Marker = Marker(id: int, lat: real, lng: real, title: string, kind: SubcategoryType)

  /** `FeedItemDTO`: the card projection used by the list view; `null` fields are `None`. */
  datatype FeedItem = FeedItem(
    id: int,
    image: Option<string>,
    title: string,
    price: Option<real>,
    date: Option<int>,
    venueName: Option<string>,
    subcategory: string,
    kind: SubcategoryType,
    location: Option<Location>)
}
