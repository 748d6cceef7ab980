/**
 * The batching step of the metrics route of src/routes/metrics/metrics.ts: the
 * `entries.reduce` that turns validated engagement entries into metric rows and
 * sorts them into one bucket per entity kind. The four `createMany` writes are not
 * modelled; the clock is a parameter that gives the timestamp of the n-th read.
 */
module Metrics {
  import opened Wrappers
  import opened Models

  /** One validated entry of the request body. */
  datatype Entry = Entry(
    subcategory: SubcategoryType,
    engagementSource: EngagementSource,
    engagementType: EngagementType,
    id: int,
    duration: Option<real>)

  /** One metric row to insert; `entityKey` is the name of the column that holds `entityId`. */
  datatype Row = Row(
    entityKey: string,
    entityId: int,
    userId: int,
    engagementTypeId: nat,
    engagementSourceId: nat,
    duration: Option<real>,
    date: string)

  /** `` `${subcategory}Id` ``: the foreign-key column of a kind's metric table. */
  function EntityKey(kind: SubcategoryType): (key: string)
    ensures KindOfKey(key) == Some(kind)
  {
    var key := kind.Name() + "Id";
    match kind
    case EventKind => assert key == "eventId"; key
    case PromotionKind => assert key == "promotionId"; key
    case VenueKind => assert key == "venueId"; key
    case PerformerKind => assert key == "performerId"; key
  }

  /** The row built for one entry of user `userId`, stamped `date`. */
  function ToRow(e: Entry, userId: int, date: string): Row
  {
    Row(EntityKey(e.subcategory), e.id, userId, e.engagementType.Code(), e.engagementSource.Code(),
        e.duration, date)
  }

  /** Reads the kind back from a column name. */
  function KindOfKey(key: string): Option<SubcategoryType>
  {
    if key == "eventId" then Some(EventKind)
    else if key == "promotionId" then Some(PromotionKind)
    else if key == "venueId" then Some(VenueKind)
    else if key == "performerId" then Some(PerformerKind)
    else None
  }

  /** Reads an engagement type back from its code. */
  function TypeOfCode(c: nat): Option<EngagementType>
  {
    if c == 0 then Some(Click) else if c == 1 then Some(Impression) else if c == 2 then Some(DwellTime) else None
  }

  /** Reads an engagement source back from its code. */
  function SourceOfCode(c: nat): Option<EngagementSource>
  {
    if c == 0 then Some(MapSource) else if c == 1 then Some(ListSource) else if c == 2 then Some(PageSource) else None
  }

  /** The entry a row was built from, if the row is well formed. */
  function EntryOf(row: Row): Option<Entry>
  {
    match (KindOfKey(row.entityKey), TypeOfCode(row.engagementTypeId), SourceOfCode(row.engagementSourceId))
    case (Some(kind), Some(t), Some(s)) => Some(Entry(kind, s, t, row.entityId, row.duration))
    case _ => None
  }

  /**
   * A row keeps everything its entry said: the entry is read back from the column
   * name and the two codes, and the row carries the caller's user id and the date.
   */
  lemma {:induction false} RowRoundTrip(e: Entry, userId: int, date: string)
    ensures EntryOf(ToRow(e, userId, date)) == Some(e)
    ensures ToRow(e, userId, date).userId == userId && ToRow(e, userId, date).date == date
    ensures e.duration.None? ==> ToRow(e, userId, date).duration.None?
  {
  }

  /** The four buckets of the reduce's accumulator. */
  datatype Buckets = Buckets(venue: seq<Row>, performer: seq<Row>, event: seq<Row>, promotion: seq<Row>) {

    /** `acc[kind]`. */
    function Get(kind: SubcategoryType): seq<Row>
    {
      match kind
      case VenueKind => venue
      case PerformerKind => performer
      case EventKind => event
      case PromotionKind => promotion
    }

    /** `acc[kind].push(row)`: the named bucket grows by `row`, the other three stay as they are. */
    function Push(kind: SubcategoryType, row: Row): (b: Buckets)
      ensures b.Get(kind) == Get(kind) + [row]
      ensures forall other :: other != kind ==> b.Get(other) == Get(other)
    {
      match kind
      case VenueKind => this.(venue := venue + [row])
      case PerformerKind => this.(performer := performer + [row])
      case EventKind => this.(event := event + [row])
      case PromotionKind => this.(promotion := promotion + [row])
    }

    /** The number of rows in all four buckets. */
    function Size(): nat
    {
      |venue| + |performer| + |event| + |promotion|
    }
  }

  /** `initialData`: four empty buckets. */
  const InitialData := Buckets([], [], [], [])

  /**
   * The rows that land in `kind`'s bucket: one per entry of that kind, in entry order,
   * the i-th entry stamped with the i-th clock reading.
   */
  function Bucket(entries: seq<Entry>, kind: SubcategoryType, userId: int, clock: nat -> string): seq<Row>
  {
    if entries == [] then []
    else
      var i := |entries| - 1;
      Bucket(entries[..i], kind, userId, clock)
        + (if entries[i].subcategory == kind then [ToRow(entries[i], userId, clock(i))] else [])
  }

  /** The number of entries of one kind. */
  function CountOf(entries: seq<Entry>, kind: SubcategoryType): nat
  {
    if entries == [] then 0
    else CountOf(entries[..|entries| - 1], kind) + (if entries[|entries| - 1].subcategory == kind then 1 else 0)
  }

  /** The `entries.reduce` of the handler. */
  method BatchEntries(entries: seq<Entry>, userId: int, clock: nat -> string) returns (data: Buckets)
    ensures forall kind :: data.Get(kind) == Bucket(entries, kind, userId, clock)
  {
    data := InitialData;
    for i := 0 to |entries|
      invariant forall kind :: data.Get(kind) == Bucket(entries[..i], kind, userId, clock)
    {
      assert entries[..i + 1][..i] == entries[..i];
      var cur := entries[i];
      var entry := Row(EntityKey(cur.subcategory), cur.id, userId, cur.engagementType.Code(),
                       cur.engagementSource.Code(), cur.duration, clock(i));
      data := data.Push(cur.subcategory, entry);
    }
    assert entries[..|entries|] == entries;
  }

  /** A kind's bucket holds one row per entry of that kind. */
  lemma {:induction false} BucketSize(entries: seq<Entry>, kind: SubcategoryType, userId: int, clock: nat -> string)
    ensures |Bucket(entries, kind, userId, clock)| == CountOf(entries, kind)
  {
    if entries != [] {
      BucketSize(entries[..|entries| - 1], kind, userId, clock);
    }
  }

  /** Each entry is counted under exactly one kind, so the buckets hold every entry once. */
  lemma {:induction false} CountsPartition(entries: seq<Entry>)
    ensures CountOf(entries, VenueKind) + CountOf(entries, PerformerKind) + CountOf(entries, EventKind)
      + CountOf(entries, PromotionKind) == |entries|
  {
    if entries != [] {
      CountsPartition(entries[..|entries| - 1]);
    }
  }

  /** The bucket sizes sum to the number of entries; no entry is lost or duplicated. */
  lemma {:induction false} BatchSize(entries: seq<Entry>, userId: int, clock: nat -> string, data: Buckets)
    requires forall kind :: data.Get(kind) == Bucket(entries, kind, userId, clock)
    ensures data.Size() == |entries|
  {
    assert data.venue == data.Get(VenueKind) && data.performer == data.Get(PerformerKind);
    assert data.event == data.Get(EventKind) && data.promotion == data.Get(PromotionKind);
    BucketSize(entries, VenueKind, userId, clock);
    BucketSize(entries, PerformerKind, userId, clock);
    BucketSize(entries, EventKind, userId, clock);
    BucketSize(entries, PromotionKind, userId, clock);
    CountsPartition(entries);
  }

  /**
   * Every row of a kind's bucket comes from an entry of that kind: it names that
   * kind's column, and it is the row of that entry with its own clock reading.
   */
  lemma {:induction false} BucketRowsFromEntries(entries: seq<Entry>, kind: SubcategoryType, userId: int,
                                                 clock: nat -> string, row: Row)
    requires row in Bucket(entries, kind, userId, clock)
    ensures row.entityKey == EntityKey(kind)
    ensures exists i :: (0 <= i < |entries| && entries[i].subcategory == kind
      && row == ToRow(entries[i], userId, clock(i)))
  {
    var n := |entries| - 1;
    var init := entries[..n];
    if row in Bucket(init, kind, userId, clock) {
      BucketRowsFromEntries(init, kind, userId, clock, row);
      var i :| 0 <= i < |init| && init[i].subcategory == kind && row == ToRow(init[i], userId, clock(i));
      assert entries[i] == init[i];
    } else {
      assert entries[n].subcategory == kind && row == ToRow(entries[n], userId, clock(n));
    }
  }

  /** Every entry of a kind has its row in that kind's bucket. */
  lemma {:induction false} EntriesReachBucket(entries: seq<Entry>, userId: int, clock: nat -> string, i: int)
    requires 0 <= i < |entries|
    ensures ToRow(entries[i], userId, clock(i)) in Bucket(entries, entries[i].subcategory, userId, clock)
  {
    var n := |entries| - 1;
    if i < n {
      var init := entries[..n];
      assert init[i] == entries[i];
      EntriesReachBucket(init, userId, clock, i);
    }
  }

  /** An empty request yields four empty buckets. */
  lemma {:induction false} EmptyBatch(userId: int, clock: nat -> string, data: Buckets)
    requires forall kind :: data.Get(kind) == Bucket([], kind, userId, clock)
    ensures data == InitialData
  {
    assert data.venue == data.Get(VenueKind) && data.performer == data.Get(PerformerKind);
    assert data.event == data.Get(EventKind) && data.promotion == data.Get(PromotionKind);
  }
}
