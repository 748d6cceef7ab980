/**
 * The vector-tile route of src/routes/tiles/tiles.js. Clients address tiles in the XYZ
 * scheme (row 0 at the top); the MBTiles 1.3 specification (section "Tiles") stores them
 * in the TMS scheme (row 0 at the bottom), so the route flips the row before the lookup.
 * The route parameters are taken as the integers they spell; `2 ** z` is then an
 * integer for a zoom of 0 or more and a fraction for a negative one.
 */
module Tiles {

  function Pow2(z: nat): (p: nat)
    ensures p >= 1
    ensures z >= 1 ==> p >= 2
  {
    if z == 0 then 1 else 2 * Pow2(z - 1)
  }

  /** `2 ** z` for any integer zoom: a natural number from 0 on, a fraction in (0, 1/2] below. */
  function TwoToThe(z: int): (p: real)
    ensures z >= 0 ==> p == Pow2(z) as real
    ensures z < 0 ==> 0.0 < p <= 0.5
  {
    if z >= 0 then Pow2(z) as real else 1.0 / Pow2(-z) as real
  }

  /** `2 ** z - 1 - y`: the TMS `tile_row` of XYZ row `y` at zoom `z`. */
  function FlipRow(z: int, y: int): (row: real)
    ensures z >= 0 ==> row == (Pow2(z) - 1 - y) as real
    ensures z >= 0 ==> (0 <= y < Pow2(z) <==> 0.0 <= row < Pow2(z) as real)
    ensures z < 0 ==> row.Floor == -1 - y && row != row.Floor as real
  {
    var p := TwoToThe(z);
    assert z < 0 ==> (-1 - y) as real < p - 1.0 - y as real < (-y) as real;
    p - 1.0 - y as real
  }

  /** For a zoom of 0 or more the flip is an involution on rows. */
  lemma FlipRowInvolution(z: nat, y: int)
    ensures FlipRow(z, FlipRow(z, y).Floor) == y as real
  {
  }

  /** What the SQLite callback can receive: an error, no row, or the stored (gzipped) blob. */
  datatype TileRow = QueryError | NoRow | Row(tileData: seq<bv8>)

  /**
   * The key of the query `zoom_level = ? AND tile_column = ? AND tile_row = ?`; the row is
   * the JavaScript number the route computes, fractional for a negative zoom.
   */
  datatype TileKey = TileKey(zoomLevel: int, tileColumn: int, tileRow: real)

  datatype Response = Response(status: nat, body: seq<bv8>, message: string)

  /**
   * Serves `/:z/:x/:y.pbf`. `lookup` stands for the SQLite read and `gunzip` for
   * `zlib.gunzipSync`; both are outside the model.
   */
  function ServeTile(z: int, x: int, y: int, lookup: TileKey -> TileRow, gunzip: seq<bv8> -> seq<bv8>): (r: Response)
    ensures var reply := lookup(TileKey(z, x, FlipRow(z, y)));
      && (r.status == 500 <==> reply.QueryError?)
      && (r.status == 404 <==> reply.NoRow?)
      && (r.status == 200 <==> reply.Row?)
      && (reply.NoRow? ==> r.message == "Tile not found")
      && (reply.QueryError? ==> r.message == "Internal server error")
      && (reply.Row? ==> r.body == gunzip(reply.tileData))
  {
    var convertedY := FlipRow(z, y);
    match lookup(TileKey(z, x, convertedY))
    case QueryError => Response(500, [], "Internal server error")
    case NoRow => Response(404, [], "Tile not found")
    case Row(data) => Response(200, gunzip(data), "")
  }
}
