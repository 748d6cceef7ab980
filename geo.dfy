/** The viewport normalisation `parseBounds` of src/utils/utils.ts. */
module Geo {

  function Min(a: real, b: real): real { if a <= b then a else b }
  function Max(a: real, b: real): real { if a <= b then b else a }

  /**
   * Reads `[swLat, swLng, neLat, neLng]` and returns `[minLat, maxLat, minLng, maxLng]`:
   * each output pair is ordered and is the input corner pair, whatever diagonal the
   * corners came in.
   */
  function ParseBounds(bounds: seq<real>): (r: seq<real>)
    requires |bounds| == 4
    ensures |r| == 4
    ensures r[0] <= r[1] && r[2] <= r[3]
    ensures multiset{r[0], r[1]} == multiset{bounds[0], bounds[2]}
    ensures multiset{r[2], r[3]} == multiset{bounds[1], bounds[3]}
  {
    var swLat, swLng, neLat, neLng := bounds[0], bounds[1], bounds[2], bounds[3];
    [Min(swLat, neLat), Max(swLat, neLat), Min(swLng, neLng), Max(swLng, neLng)]
  }

  /** The two ordering and multiset properties leave only one possible output. */
  lemma {:induction false} ParseBoundsIsDetermined(bounds: seq<real>, r: seq<real>)
    requires |bounds| == 4 && |r| == 4
    requires r[0] <= r[1] && r[2] <= r[3]
    requires multiset{r[0], r[1]} == multiset{bounds[0], bounds[2]}
    requires multiset{r[2], r[3]} == multiset{bounds[1], bounds[3]}
    ensures r == ParseBounds(bounds)
  {
    var p := ParseBounds(bounds);
    PairFromMultiset(r[0], r[1], bounds[0], bounds[2]);
    PairFromMultiset(r[2], r[3], bounds[1], bounds[3]);
  }

  /** An ordered pair is fixed by its multiset. */
  lemma PairFromMultiset(lo: real, hi: real, a: real, b: real)
    requires lo <= hi && multiset{lo, hi} == multiset{a, b}
    ensures lo == Min(a, b) && hi == Max(a, b)
  {
    assert a in multiset{lo, hi} && b in multiset{lo, hi};
    assert lo in multiset{a, b} && hi in multiset{a, b};
    if a == b {
      assert multiset{lo, hi}[a] == 2;
    }
  }

  /** Swapping the corners, or only the latitudes, or only the longitudes, changes nothing. */
  lemma ParseBoundsCornerOrderIrrelevant(swLat: real, swLng: real, neLat: real, neLng: real)
    ensures ParseBounds([neLat, neLng, swLat, swLng]) == ParseBounds([swLat, swLng, neLat, neLng])
    ensures ParseBounds([neLat, swLng, swLat, neLng]) == ParseBounds([swLat, swLng, neLat, neLng])
    ensures ParseBounds([swLat, neLng, neLat, swLng]) == ParseBounds([swLat, swLng, neLat, neLng])
  {
    var r := ParseBounds([swLat, swLng, neLat, neLng]);
    assert r == [Min(swLat, neLat), Max(swLat, neLat), Min(swLng, neLng), Max(swLng, neLng)];
    assert Min(swLat, neLat) == Min(neLat, swLat) && Max(swLat, neLat) == Max(neLat, swLat);
    assert Min(swLng, neLng) == Min(neLng, swLng) && Max(swLng, neLng) == Max(neLng, swLng);
  }

  /** Feeding the normalised box back in as `[minLat, minLng, maxLat, maxLng]` reproduces it. */
  lemma ParseBoundsIdempotent(bounds: seq<real>)
    requires |bounds| == 4
    ensures var r := ParseBounds(bounds); ParseBounds([r[0], r[2], r[1], r[3]]) == r
  {
  }
}
