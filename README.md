# nightlife-backend discovery, scoring and request logic in Dafny

This project models the algorithmic core of the nightlife-backend service. The service is a
location-aware discovery feed of venues, events, promotions and performers. The Dafny
modules follow its source files one to one:

- `Discovery` (`src/routes/discover/discovery.ts`) covers:
  - the three `where` builders and when each kind counts as active;
  - the view and geometry preconditions;
  - the venue query: the map-view bounding box, the list-view city list with the
    nearest-city fallback, `Object.assign` of the venue filters, and the nested event and
    promotion conditions ANDed in (one) or ORed (two);
  - the flattening of the fetched venues into markers or feed cards;
  - the fetch by explicit ids, and the route handler that chooses between the two paths.

  The store is a function parameter from a venue query to the venues it returns. Those
  venues come with their events and promotions already filtered. The model then applies
  each read's `select`: a field the select does not read is `None` in what the mappers
  see (the discovery read has no event location and no promotion price or location; the
  by-id reads have no start date and no promotion price).
- `Scoring` (`src/shared/recommendations/scoring.ts`) covers:
  - the post-query arithmetic of the venue, event and promotion scorers: totals, per-type
    click and dwell shares, the preference bonus and the new-account blend;
  - `getTopScoredItems`: score attachment, a stable descending sort, and JavaScript
    `slice(0, topN)`.

  The scorers are imperative methods, each proved equal to a specification function.
- `Geo` (`src/utils/utils.ts`) covers `parseBounds`.
- `Mappers` (`src/shared/mappers.ts`) covers the six marker and feed-card projections.
- `Validation` (`src/shared/validation.ts`) covers the query coercers `stringArray`,
  `numberArray` and `boolean`, the password rules, and the email pattern. The email
  pattern is written as a deterministic recogniser and proved equal to the
  regular-expression reading.
- `Metrics` (`src/routes/metrics/metrics.ts`) covers the `entries.reduce` that builds
  metric rows and sorts them into four buckets.
- `Models` (`src/shared/models.ts`) covers the subcategory names and the engagement codes.
- `Resend` (`src/routes/auth/routers/resend.ts`) covers the verification-link resend
  throttle. The email-token row is a class updated in place.
- `Tiles` (`src/routes/tiles/tiles.js`) covers the XYZ-to-TMS row flip and the
  500/404/200 outcome of a tile request.
- `Wrappers` holds the `Option` and `Result` types.

Numbers are `real` and time is integer milliseconds. Store reads, the clock, the
nearest-city query, token generation and mail delivery are parameters.

The model follows these behaviours of the code:

- With no active filter, each venue emits its own item before its events and promotions
  (`src/routes/discover/discovery.ts:382-393`).
- The date window of the nested conditions defaults to now through now + 30 days in both
  views, and every matching row is returned in one answer, without pagination
  (`src/routes/discover/discovery.ts:302-305`).
- List view needs a coordinate pair even when a city list is given
  (`src/routes/discover/discovery.ts:241`).
- The mappers do not tolerate a missing type relation (`src/shared/mappers.ts:41`). Here a
  type row is always present.
- Under non-negative metrics every score lies in [0, 1]. The click and dwell shares are at
  most 1, so the weights 0.3 + 0.45 + 0.25 cap the raw score at 1, and the new-account
  blend `0.6 * score + 0.4` keeps it there (`src/shared/recommendations/scoring.ts:78-83`).

## Model

| member | source | states |
|---|---|---|
| Models.SubcategoryType.Name | src/shared/models.ts:1-6 | each kind's tag is one of the four strings "event", "promotion", "venue", "performer" |
| Models.EngagementType.Code | src/shared/models.ts:16-20 | an engagement type code is one of 0, 1, 2 (which one, and that they differ: CodesAreInjective) |
| Models.EngagementSource.Code | src/shared/models.ts:22-26 | an engagement source code is one of 0, 1, 2 (which one, and that they differ: CodesAreInjective) |
| Models.CodesAreInjective | src/shared/models.ts:16-26 | click 0, impression 1, dwellTime 2; map 0, list 1, page 2; distinct values have distinct codes |
| Geo.ParseBounds | src/utils/utils.ts:4-13 | output has four values with minLat <= maxLat and minLng <= maxLng; {minLat, maxLat} is the multiset {swLat, neLat}, and likewise for the longitudes |
| Geo.ParseBoundsIsDetermined | src/utils/utils.ts:7-12 | any four values that are ordered and are the same two multisets are exactly the output of parseBounds |
| Geo.ParseBoundsCornerOrderIrrelevant | src/utils/utils.ts:7-10 | swapping the corners, only the latitudes, or only the longitudes leaves the output unchanged |
| Geo.ParseBoundsIdempotent | src/utils/utils.ts:4-13 | feeding [minLat, minLng, maxLat, maxLng] back in gives the same output |
| Tiles.TwoToThe | src/routes/tiles/tiles.js:19 | `2 ** z` is the natural number 2^z for z >= 0 and a fraction in (0, 1/2] for a negative zoom |
| Tiles.FlipRow | src/routes/tiles/tiles.js:19 | for z >= 0 the row is 2^z - 1 - y, and y is in [0, 2^z) iff the row is; for a negative zoom the row is not an integer (it lies strictly between -1 - y and -y) |
| Tiles.FlipRowInvolution | src/routes/tiles/tiles.js:19 | for z >= 0, flipping twice gives back y |
| Tiles.ServeTile | src/routes/tiles/tiles.js:11-34 | lookup by (z, x, flipped y) for any integer zoom, negative included; status 500 iff the query failed, 404 "Tile not found" iff there is no row, 200 with the gunzipped data iff there is a row |
| Mappers.VenueToMarker | src/shared/mappers.ts:4-12 | id and title from the venue, type venue, lat/lng from the venue's location |
| Mappers.EventToMarker | src/shared/mappers.ts:14-22 | id and title from the event, type event, lat/lng from the venue's location and not the event's |
| Mappers.PromotionToMarker | src/shared/mappers.ts:24-32 | id and title from the promotion, type promotion, lat/lng from the venue's location |
| Mappers.VenueToFeedItem | src/shared/mappers.ts:34-45 | title = name, no price, no date, subcategory = venue type name, type venue, location = venue location |
| Mappers.EventToFeedItem | src/shared/mappers.ts:47-80 | type performer iff exactly one performer, with id/image/title from that performer; otherwise id/image/title of the event; price, date, venue name and subcategory always from the event; location from the venue when it has one, else from the event |
| Mappers.PromotionToFeedItem | src/shared/mappers.ts:82-99 | fields from the promotion, venue name from the venue, type promotion, location = venue location if present else the promotion's |
| Mappers.EventLocationFallback | src/shared/mappers.ts:48-49 | an event card has no location iff neither the venue nor the event has one |
| Validation.Split | src/shared/validation.ts:74 | `split(",")` gives at least one piece and no piece contains the separator |
| Validation.JoinSplit | src/shared/validation.ts:74 | joining the pieces with the separator gives back the input |
| Validation.TrimStart | src/shared/validation.ts:75 | the result is a suffix; everything removed is whitespace; the result does not start with whitespace |
| Validation.TrimEnd | src/shared/validation.ts:75 | the result is a prefix; everything removed is whitespace; the result does not end with whitespace |
| Validation.Trim | src/shared/validation.ts:75 | the result has no leading or trailing whitespace |
| Validation.TrimAddsNothing | src/shared/validation.ts:75 | trimming introduces no character absent from the input |
| Validation.TrimIsMiddle | src/shared/validation.ts:75 | the trimmed string is s[i..j], and everything outside it is whitespace |
| Validation.TrimTrimmed | src/shared/validation.ts:75 | trimming a trimmed string changes nothing |
| Validation.DropEmpty | src/shared/validation.ts:76 | `filter(Boolean)` keeps every non-empty piece exactly as often as the input has it and no empty one, and changes nothing when none is empty |
| Validation.DropEmptyAppend | src/shared/validation.ts:76 | the filter keeps the input order: filtering a concatenation is concatenating the filtered parts |
| Validation.DropEmptyMembers | src/shared/validation.ts:76 | a value survives the filter iff it is non-empty and in the input |
| Validation.TrimEachMembers | src/shared/validation.ts:75 | a value is among the trimmed pieces iff some piece trims to it |
| Validation.StringArray | src/shared/validation.ts:70-78 | an array is returned unchanged; for a string, every element is non-empty, trimmed and comma-free, with at most one element per piece |
| Validation.StringArrayMembers | src/shared/validation.ts:72-76 | a value is in the result for a string iff it is non-empty and some comma-separated piece trims to it |
| Validation.StringArrayCanonical | src/shared/validation.ts:71-76 | a string with non-empty, already trimmed pieces is split exactly, and joining the result gives back the string |
| Validation.ToNumbers | src/shared/validation.ts:64 | one defined number per piece, in order |
| Validation.KeepDefined | src/shared/validation.ts:65 | the filter keeps every defined value exactly as often as the input has it, and nothing else |
| Validation.KeepDefinedAppend | src/shared/validation.ts:65 | the filter keeps the input order: filtering a concatenation is concatenating the filtered parts |
| Validation.KeepDefinedAll | src/shared/validation.ts:65 | when every value is defined, the filter keeps them all in order |
| Validation.NumberArray | src/shared/validation.ts:60-68 | exactly one `Number(piece)` per comma-separated piece, in order |
| Validation.Boolean | src/shared/validation.ts:82 | true iff the string is non-empty |
| Validation.BooleanOfFalseIsTrue | src/shared/validation.ts:82 | "false" coerces to true and "" to false |
| Validation.Utf16Length | src/shared/validation.ts:20 | the length `.min(8)` compares: between the number of characters and twice it, and equal to it for a string inside the Basic Multilingual Plane |
| Validation.PasswordIssues | src/shared/validation.ts:17-32 | no rule fails iff the password is at least 8 UTF-16 code units long and has an uppercase letter, a lowercase letter, a digit and a listed special character; each failed rule is reported once |
| Validation.PasswordIssuesExact | src/shared/validation.ts:17-32 | a rule is reported iff the password breaks that rule |
| Validation.StrongIffAllRules | src/shared/validation.ts:17-32 | a password is strong (IsStrongPassword) iff it passes each of the five rules |
| Validation.AstralPasswordIsLongEnough | src/shared/validation.ts:20 | "Aa1!" followed by two characters outside the Basic Multilingual Plane (two emoji, say) is 8 code units and fails no rule, although it has only six characters |
| Validation.PasswordMessagesDistinct | src/shared/validation.ts:20-31 | distinct rules have distinct messages |
| Validation.LetterRun | src/shared/validation.ts:42 | the length of the longest prefix of ASCII letters |
| Validation.IndexOf | src/shared/validation.ts:42 | None iff the character is absent; otherwise the position of its first occurrence |
| Validation.SuffixGroupsChars | src/shared/validation.ts:42 | the `(\.[a-zA-Z]{2,})+` tail contains only dots and letters and ends in a letter |
| Validation.SuffixGroupsEnd | src/shared/validation.ts:42 | the tail ends in a dot followed by at least two letters |
| Validation.FirstLabelHasNoDot | src/shared/validation.ts:42 | the first domain label contains neither '.' nor '@' |
| Validation.SuffixGroupsIsRegex | src/shared/validation.ts:42 | the greedy reading of the suffix groups (longest letter run, then the end or more groups) accepts exactly the tails the regular expression's `(?:\.[a-zA-Z]{2,})+$` matches with some choice of group lengths |
| Validation.DomainSplit | src/shared/validation.ts:42 | the recogniser's domain test holds iff the domain splits into a first label and a suffix tail at some position |
| Validation.EmailMatchIsRegexMatch | src/shared/validation.ts:42 | an accepted string splits as local part, '@', first label, suffix tail |
| Validation.RegexMatchIsEmailMatch | src/shared/validation.ts:42 | any such split means the recogniser accepts the string |
| Validation.EmailMatchesRegex | src/shared/validation.ts:37-48 | the recogniser (IsEmail) accepts a string iff the regular expression's reading matches it |
| Validation.DomainShape | src/shared/validation.ts:42 | an accepted domain has no '@' and ends in a dot followed by at least two letters |
| Validation.DomainFirstLabel | src/shared/validation.ts:42 | an accepted domain starts with a valid first label followed by a dot |
| Validation.EmailHasOneAt | src/shared/validation.ts:37-48 | an accepted email has exactly one '@' |
| Validation.EmailFirstLabel | src/shared/validation.ts:37-48 | after the '@' comes a first label of 1-63 characters that starts and ends alphanumerically, then a dot |
| Validation.EmailEnding | src/shared/validation.ts:37-48 | an accepted email ends in '.' followed by at least two ASCII letters |
| Scoring.SumSignal | src/shared/recommendations/scoring.ts:49-55 | the reduce returns the sum of the signal over all rows |
| Scoring.CollectPreferences | src/shared/recommendations/scoring.ts:57-60 | the preference set holds exactly the preferred type ids |
| Scoring.FillRowWeights | src/shared/recommendations/scoring.ts:65-70 | each row's type maps to its clicks and dwell time divided by the totals (0 for a zero total); a later row overwrites an earlier one |
| Scoring.FillKeyWeights | src/shared/recommendations/scoring.ts:170-180 | each merged type maps to its sum divided by the total, or 0 for a zero total |
| Scoring.FillScores | src/shared/recommendations/scoring.ts:75-84 | every item id maps to its item's score, the last item winning on duplicate ids |
| Scoring.ScoreVenueItems | src/shared/recommendations/scoring.ts:49-86 | the venue scorer's result equals the category-score specification |
| Scoring.ScorePromotionItems | src/shared/recommendations/scoring.ts:233-269 | the promotion scorer's result equals the same specification |
| Scoring.AccumulateByType | src/shared/recommendations/scoring.ts:141-163 | the running totals gain the sum of the rows, and the per-type maps gain each row's values under its type |
| Scoring.ScoreEventItems | src/shared/recommendations/scoring.ts:135-196 | the event scorer's result equals the event-score specification over event rows followed by performer rows |
| Scoring.TotalAppend | src/shared/recommendations/scoring.ts:146-158 | the total of two runs of rows is the sum of their totals |
| Scoring.MergeIntoAppend | src/shared/recommendations/scoring.ts:141-163 | merging the event rows, then the performer rows, is merging their concatenation |
| Scoring.OfType | src/shared/recommendations/scoring.ts:149-150 | the rows of one type, taken from the input |
| Scoring.MergedIsPerTypeTotal | src/shared/recommendations/scoring.ts:149-150 | a type is a key of the merged map iff some row has it, and its value is the total of that type's rows |
| Scoring.RowBelowTotal | src/shared/recommendations/scoring.ts:67-69 | with non-negative rows, each row's value lies between 0 and the total |
| Scoring.TotalNonNegative | src/shared/recommendations/scoring.ts:49-55 | with non-negative rows, the total is non-negative |
| Scoring.TypeBelowTotal | src/shared/recommendations/scoring.ts:174 | with non-negative rows, a per-type sum lies between 0 and the total |
| Scoring.ShareInUnit | src/shared/recommendations/scoring.ts:67 | a part between 0 and the total has a share in [0, 1] |
| Scoring.RowSharesAreRowShares | src/shared/recommendations/scoring.ts:65-70 | every weight is the share of the last row of its type |
| Scoring.RowWeightsInUnit | src/shared/recommendations/scoring.ts:65-70 | with non-negative rows, every venue or promotion weight lies in [0, 1] |
| Scoring.KeyWeightsInUnit | src/shared/recommendations/scoring.ts:170-180 | with non-negative rows, every event weight lies in [0, 1] |
| Scoring.RowSharesAreMergedShares | src/shared/recommendations/scoring.ts:65-70 | when the type ids are distinct (the SQL groups by type), per-row weights equal per-type merged weights |
| Scoring.RawScore | src/shared/recommendations/scoring.ts:78-81 | shares in [0, 1] give a raw score in [0, 1]; a preferred category scores at least 0.25; with no shares the score is 0 iff the category is not preferred |
| Scoring.FinalScore | src/shared/recommendations/scoring.ts:83 | an established account keeps the raw score; a raw score in [0, 1] stays in [0, 1] and never decreases; a new account scores at least 0.4, and strictly more than a raw score below 1 |
| Scoring.NewAccountThresholds | src/shared/recommendations/scoring.ts:73 | an account is new iff under 200 clicks or under 2 minutes of dwell time; more activity never makes an established account new |
| Scoring.ScoreDependsOnTypeOnly | src/shared/recommendations/scoring.ts:75-83 | two items of the same category get the same score (ItemScore) |
| Scoring.PreferenceBonus | src/shared/recommendations/scoring.ts:78-83 | preferring an item's category adds exactly 0.25 to its score, or 0.15 for a new account |
| Scoring.ScoresCoverItems | src/shared/recommendations/scoring.ts:75-84 | the result's keys are exactly the item ids |
| Scoring.ScoreOfLastItem | src/shared/recommendations/scoring.ts:78-83 | the last item with a given id sets that id's score, 0.3·click + 0.45·dwell + 0.25 if preferred, blended for a new account |
| Scoring.ItemScoreBounds | src/shared/recommendations/scoring.ts:78-83 | with weights in [0, 1], a score lies in [0, 1], and a new account's score is at least 0.4 |
| Scoring.ScoresComeFromItems | src/shared/recommendations/scoring.ts:75-84 | every score is the score of an input item with that id |
| Scoring.ScoresBounded | src/shared/recommendations/scoring.ts:75-84 | with weights in [0, 1], all scores lie in [0, 1], and at least 0.4 for a new account |
| Scoring.CategoryScoresBounded | src/shared/recommendations/scoring.ts:49-86 | with non-negative metrics, venue and promotion scores lie in [0, 1] |
| Scoring.EventScoresBounded | src/shared/recommendations/scoring.ts:135-196 | with non-negative metrics, event scores lie in [0, 1] |
| Scoring.NoMetricsScores | src/shared/recommendations/scoring.ts:73-83 | with no metric rows, every item scores 0.4, or 0.55 when its type is preferred, for both scorers |
| Scoring.Attach | src/shared/recommendations/scoring.ts:282 | item i is paired with its score, 0 when the map has none |
| Scoring.Insert | src/shared/recommendations/scoring.ts:283 | inserting adds exactly that element to the multiset |
| Scoring.SortDesc | src/shared/recommendations/scoring.ts:283 | the sort keeps the length |
| Scoring.InsertSorted | src/shared/recommendations/scoring.ts:283 | inserting into a descending list keeps it descending |
| Scoring.SortDescSorted | src/shared/recommendations/scoring.ts:283 | the sort's output is non-increasing by score |
| Scoring.SortDescPermutes | src/shared/recommendations/scoring.ts:283 | the sort's output is a permutation of its input |
| Scoring.InsertStable | src/shared/recommendations/scoring.ts:283 | insertion keeps the input order among equal scores |
| Scoring.PassEqual | src/shared/recommendations/scoring.ts:283 | moving an element past one of a different score keeps the order within every score |
| Scoring.SortDescStable | src/shared/recommendations/scoring.ts:283 | for every score value, the elements with that score keep their input order |
| Scoring.SortDescOfSorted | src/shared/recommendations/scoring.ts:283 | sorting a descending list changes nothing |
| Scoring.SliceEnd | src/shared/recommendations/scoring.ts:284 | the end index of `slice(0, topN)` under JavaScript's rules for negative and oversized ends |
| Scoring.TopScored | src/shared/recommendations/scoring.ts:272-285 | the result has the length slice gives |
| Scoring.TopScoredCorrect | src/shared/recommendations/scoring.ts:272-285 | length min(topN, number of items) for topN >= 0; sorted non-increasing; a sub-multiset of the scored items; each element an input item with its score; a prefix of the stable sort |
| Metrics.EntityKey | src/routes/metrics/metrics.ts:47 | the column name reads back as the kind it was built from |
| Metrics.RowRoundTrip | src/routes/metrics/metrics.ts:44-56 | the entry reads back from its row (kind, id, both codes, duration); the row carries the caller's user id and the date; an absent duration stays absent |
| Metrics.Buckets.Push | src/routes/metrics/metrics.ts:58 | the named bucket gains the row at its end and the other three are unchanged |
| Metrics.BatchEntries | src/routes/metrics/metrics.ts:37-61 | every bucket holds the rows of that kind's entries, in entry order |
| Metrics.BucketSize | src/routes/metrics/metrics.ts:58 | a bucket holds one row per entry of its kind |
| Metrics.CountsPartition | src/routes/metrics/metrics.ts:44-61 | the four per-kind counts add up to the number of entries |
| Metrics.BatchSize | src/routes/metrics/metrics.ts:37-61 | the bucket sizes sum to the number of entries |
| Metrics.BucketRowsFromEntries | src/routes/metrics/metrics.ts:44-58 | every row in a kind's bucket names that kind's column and is the row of some entry of that kind |
| Metrics.EntriesReachBucket | src/routes/metrics/metrics.ts:58 | every entry's row is in the bucket of its kind |
| Metrics.EmptyBatch | src/routes/metrics/metrics.ts:37-42 | an empty request gives four empty buckets |
| Resend.Guard | src/routes/auth/routers/resend.ts:45-56 | "unable to resend" iff 3 or more resends and the last send less than 24 h ago; otherwise the wait message iff less than 5 minutes ago; otherwise no rejection |
| Resend.EmailToken.Reissue | src/routes/auth/routers/resend.ts:58-68 | a new token, one more resend, sent now, expiring 15 minutes from now |
| Resend.HandleResend | src/routes/auth/routers/resend.ts:26-68 | an unknown user or a missing row is rejected with "Something went wrong." and the row is unchanged; a guard rejection leaves the row unchanged; otherwise the row is reissued, and the outcome is sent, or "Something went wrong" if delivery fails |
| Resend.ImmediateRetryRejected | src/routes/auth/routers/resend.ts:45-56 | a request within 5 minutes of a send is rejected, by the cap at 3 or more resends and by the cooldown otherwise |
| Resend.PassMeansCooledDown | src/routes/auth/routers/resend.ts:45-56 | a request that passes comes 5 minutes or more after the last send, and a day or more once at 3 resends |
| Resend.HistorySpacing | src/routes/auth/routers/resend.ts:45-68 | in any run of successful resends, consecutive sends are 5 minutes or more apart, and a day or more apart from the row's third resend on |
| Resend.HistoryIncreasing | src/routes/auth/routers/resend.ts:51-68 | send j comes at least (j - i)·5 minutes after send i |
| Discovery.Assign | src/routes/discover/discovery.ts:291 | for each of the seven keys, `Object.assign` takes the source's value where the source has the key and keeps the target's where it has none |
| Discovery.AssignLaws | src/routes/discover/discovery.ts:291 | assigning an empty object changes nothing (either side); assigning the same source twice is assigning it once; assigns compose associatively; the result has at least the source's keys |
| Discovery.AssignNested | src/routes/discover/discovery.ts:326 | ANDing in one nested condition leaves the location and the OR key alone |
| Discovery.CreateVenueWhere | src/routes/discover/discovery.ts:54-95 | keys are present iff some venue filter is: non-empty types, a truthy flag, a non-empty search, or a list-view city list; the search becomes the OR key |
| Discovery.CreateEventWhere | src/routes/discover/discovery.ts:97-127 | keys are present iff there are non-empty event types, a truthy (non-zero) price cap, a search, or a list-view city list |
| Discovery.CreatePromotionWhere | src/routes/discover/discovery.ts:129-155 | keys are present iff there are non-empty promotion types, a search, or a list-view city list |
| Discovery.CityListActivatesAll | src/routes/discover/discovery.ts:84-152 | a non-empty city list in list view makes all three kinds active; in map view no builder has a location key |
| Discovery.GeometryError | src/routes/discover/discovery.ts:239-243 | "Bounds required for map view" iff map view without four bounds; "Coords required for list view" iff list view without two coordinates |
| Discovery.BoundsBox | src/routes/discover/discovery.ts:259-264 | the map-view box is ordered: minLat <= maxLat and minLng <= maxLng |
| Discovery.EffectiveLocations | src/routes/discover/discovery.ts:266-286 | a client city list (even empty) is kept; the list changes only to the nearest city, as a one-element list; with no client list and no nearest city there is none |
| Discovery.Window | src/routes/discover/discovery.ts:313-319 | a given start or end date bounds the window; with neither, the window runs from now for exactly 30 days |
| Discovery.NestedConditions | src/routes/discover/discovery.ts:295-323 | one nested condition per active event or promotion kind |
| Discovery.MapViewKeepsBox | src/routes/discover/discovery.ts:259-292 | in map view the query's location is exactly the parseBounds box; the later `Object.assign` never overwrites it |
| Discovery.FallbackLeavesFlags | src/routes/discover/discovery.ts:245-286 | the nearest city becomes the query's city list while the builders saw no list, although the same list given by the client would have activated all three kinds |
| Discovery.NestedCombination | src/routes/discover/discovery.ts:295-329 | one active kind is ANDed in with the date window and the OR key is untouched; with both, OR becomes the two conditions in order, replacing a venue search |
| Discovery.EmissionOf | src/routes/discover/discovery.ts:382-410 | with no active kind everything is emitted; otherwise exactly the active kinds are: the source's "or neither other kind" disjuncts never add a part |
| Discovery.EventItems | src/routes/discover/discovery.ts:386-388 | entry i is the mapped event i, at its venue, for the view |
| Discovery.PromotionItems | src/routes/discover/discovery.ts:390-392 | entry i is the mapped promotion i, at its venue, for the view |
| Discovery.VenueEntries | src/routes/discover/discovery.ts:382-411 | a venue's step fails iff map view would read its missing location, always with the null-location error; on success it contributes one entry per emitted part (the venue, each event, each promotion) |
| Discovery.Flatten | src/routes/discover/discovery.ts:382-413 | the only failure is the null-location error, so list view never fails |
| Discovery.FlattenFailsIff | src/routes/discover/discovery.ts:382-413 | the flattening fails iff some fetched venue would make map view read a missing location |
| Discovery.DiscoveryData | src/routes/discover/discovery.ts:236-413 | a geometry error is the answer when there is one; every failure is a geometry error or the map-view null location; list view with good coordinates always succeeds |
| Discovery.PushEvents | src/routes/discover/discovery.ts:401-403 | the loop appends each event's entry in order |
| Discovery.PushPromotions | src/routes/discover/discovery.ts:407-409 | the loop appends each promotion's entry in order |
| Discovery.PushVenue | src/routes/discover/discovery.ts:382-411 | one venue's step appends its entries, or fails when map view dereferences a missing location |
| Discovery.PushParts | src/routes/discover/discovery.ts:396-410 | appends the venue, its events and its promotions as the emission selects |
| Discovery.BuildVenueQuery | src/routes/discover/discovery.ts:245-329 | the assembled query equals the venue-query specification, and the flags are the builders' activity |
| Discovery.FlattenVenues | src/routes/discover/discovery.ts:375-413 | the loop over the fetched venues equals the flattening specification |
| Discovery.FetchDiscoveryData | src/routes/discover/discovery.ts:236-413 | the geometry checks come first; then one store read with the specified query, projected to the read's select, flattened as specified |
| Discovery.DiscoveryPromotionsUnpriced | src/routes/discover/discovery.ts:364-370 | the discovery read selects no promotion price, so no promotion card in its answer shows one, whatever the store holds |
| Discovery.MainEventCardsAtVenue | src/routes/discover/discovery.ts:347-354 | the discovery read selects no event location, so each list-view event card is located exactly where its venue is |
| Discovery.EntriesUnpriced | src/routes/discover/discovery.ts:382-411 | a venue whose promotions carry no price contributes no priced promotion card |
| Discovery.FlattenUnpriced | src/routes/discover/discovery.ts:382-413 | flattening venues whose promotions carry no price yields no priced promotion card |
| Discovery.FlattenFailureSticks | src/routes/discover/discovery.ts:382-411 | once a venue throws, the whole flattening fails with that error |
| Discovery.EntriesMatchView | src/routes/discover/discovery.ts:377-380 | a venue's entries are markers in map view and feed cards in list view |
| Discovery.FlattenMatchesView | src/routes/discover/discovery.ts:375-413 | map view yields only markers and list view only feed cards |
| Discovery.MapMarkersInsideBox | src/routes/discover/discovery.ts:259-264 | when every fetched venue lies inside the box, map view succeeds and every marker, event and promotion markers included, lies inside the box |
| Discovery.NoFiltersEmitsEverything | src/routes/discover/discovery.ts:383-393 | with no active filter, a venue with two events and one promotion yields four cards: the venue, both events, then the promotion |
| Discovery.FiltersSelectParts | src/routes/discover/discovery.ts:396-410 | with only event filters a venue contributes just its events; with only venue filters just itself |
| Discovery.VenueCards | src/routes/discover/discovery.ts:197-199 | one card per venue read by id (which card: VenueCardsInOrder) |
| Discovery.VenueCardsInOrder | src/routes/discover/discovery.ts:197-199 | card i is venue i's feed card |
| Discovery.EventCards | src/routes/discover/discovery.ts:213-215 | one card per event read by id (which card: EventCardsInOrder) |
| Discovery.EventCardsInOrder | src/routes/discover/discovery.ts:213-215 | card i is event i's feed card at a venue known only by name |
| Discovery.PromotionCards | src/routes/discover/discovery.ts:228-230 | one card per promotion read by id (which card: PromotionCardsInOrder) |
| Discovery.PromotionCardsInOrder | src/routes/discover/discovery.ts:228-230 | card i is promotion i's feed card at a venue known only by name |
| Discovery.DataByIds | src/routes/discover/discovery.ts:157-234 | one card per row read, and only for the non-empty id lists |
| Discovery.DataByIdsLayout | src/routes/discover/discovery.ts:184-231 | the answer is a block of venue cards, then a block of event (or performer) cards, then a block of promotion cards |
| Discovery.BlockKinds | src/routes/discover/discovery.ts:184-231 | three single-kind blocks keep their kinds once concatenated |
| Discovery.ByIdCardsUndated | src/routes/discover/discovery.ts:160-231 | the by-id selects read no start date and no promotion price, so event cards read by id have no date and promotion cards have neither date nor price |
| Discovery.FetchDataByIds | src/routes/discover/discovery.ts:157-234 | the venue cards, then the event cards, then the promotion cards, each block only for a non-empty id list and each read projected to its select |
| Discovery.PushVenueCards | src/routes/discover/discovery.ts:197-199 | the loop appends each venue's card in order |
| Discovery.PushEventCards | src/routes/discover/discovery.ts:213-215 | the loop appends each event's card in order |
| Discovery.PushPromotionCards | src/routes/discover/discovery.ts:228-230 | the loop appends each promotion's card in order |
| Discovery.DiscoverResponse | src/routes/discover/discovery.ts:426-455 | with a non-empty id list the answer is always data; the answer is a 500 iff no id list is given and the discovery read fails, and a 500 always carries "Internal server error" |
| Discovery.Discover | src/routes/discover/discovery.ts:419-457 | the handler answers as specified: the by-id cards when any id list is non-empty, else the discovery data, with every failure answered "Internal server error" |
| Discovery.IdBypass | src/routes/discover/discovery.ts:430-442 | with a non-empty id list the answer depends only on the id lists and the by-id reads: not on the view, the geometry, the other filters, the clock or the venue store |
| Discovery.GeometryCheckedFirst | src/routes/discover/discovery.ts:239-243 | a geometry error fails whatever the store holds, and the handler answers "Internal server error" |

## Left out

- Database reads and writes. Every Prisma call and raw SQL query is left out: the metric
  `GROUP BY` queries, the nearest-city query, the venue fetch, the reads by id, and the
  `createMany` and `update` writes. They are function or sequence parameters. The SQL
  aggregation is not modelled: a metric row is taken as already grouped. A read that
  rejects is not modelled either: it would be the handler's 500 "Internal server error"
  (`src/routes/discover/discovery.ts:452-455`), and resend's "Something went wrong.".
- The filtering a store applies (the `in`, `contains`, `lte` and date-window predicates).
  The venue query is modelled as data; its meaning is only assumed in
  `Discovery.MapMarkersInsideBox`, through that lemma's precondition.
- The per-venue `select` filter of the discovery read. Its nested `events` and
  `promotions` selects carry their own `where` (the event and promotion conditions and
  the date window, `src/routes/discover/discovery.ts:339-363`), which is not part of the
  modelled query. The store receives only the venue query and returns each venue with
  its events and promotions already chosen, so two requests that differ only in what
  those nested selects filter (for example `startDate`) are not told apart.
- Performers in the discovery and by-id selects. Those selects omit `performers`
  (`src/routes/discover/discovery.ts:206-210, 346-353`). The mapper then reads `.length`
  of an undefined field and throws at run time. The model passes the performer list as
  part of an event and does not reproduce that failure.
- Null venue, venue type or event type relations in the mappers. The source dereferences
  them without checks. The model types them as present. The one null it does handle is a
  venue location in map view, which fails the map-view flattening.
- The `asNumberArray`, `asBoolean`, `asNumber` and `asDate` coercers that the discovery
  schema imports (`src/routes/discover/discovery.ts:2-8`). These are not defined in
  `src/shared/validation.ts`. The model's `Filters` holds already-parsed values, `None`
  for an absent parameter. The `view` default of "map" is also left out.
- The schema's required/optional shape. `asString` is defined
  (`src/shared/validation.ts:80`) as a required `z.string()`, so the schema as written
  (`src/routes/discover/discovery.ts:47`) rejects every request without `search`. The
  model does not model that rejection: `search: None` stands for an input the schema as
  written turns away before the handler runs.
- JavaScript `Number()` string conversion. It is an uninterpreted function parameter of
  `Validation.NumberArray`, so `NaN` and the truthiness of `NaN` are not modelled.
- Floating-point rounding. Scores, shares and coordinates are `real`.
- ISO date parsing and Luxon date arithmetic. Times are integer milliseconds and `now`
  is a parameter. The metrics clock is a function of the entry index. The source reads
  the clock several times in `resend.ts`; the model reads it once.
- `Scoring.ScorePromotionItems`: the source re-evaluates the new-account test inside the
  per-item loop (`scoring.ts:258`). It has the same value every time, so the model
  computes it once.
- Zod's error envelope. `Validation.PasswordIssues` models which checks report an issue
  and their messages; it does not model Zod's issue objects or its short-circuiting of
  the refinements after a failed type check.
- Email delivery, token generation, Handlebars templates and the HTTP response helpers.
  Delivery success is a boolean parameter of `Resend.HandleResend`, and the new token a
  string parameter.
- The gunzip in `tiles.js`, and the SQLite connection. They are parameters of
  `Tiles.ServeTile`.
- Tile route parameters that do not spell an integer. `z`, `x` and `y` arrive as strings:
  a non-numeric one makes `2 ** z - 1 - y` `NaN`, and a fractional one a fractional row;
  the model takes the three as integers. It also leaves out SQLite's comparison of the
  text-bound `z` and `x` with the integer columns, and the floating-point rounding of
  `2 ** z` for very large zooms.
- Unpaired UTF-16 surrogates. A Dafny character is a Unicode scalar value, so
  `Validation.Utf16Length` counts two code units per character outside the Basic
  Multilingual Plane and cannot represent a JavaScript string with a lone surrogate.
- Concurrency. The `Promise.all` fan-out is modelled as sequential reads.
- Console logging.
