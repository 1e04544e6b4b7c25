/** The offline tile planner: the slippy-map tile rectangle of a flat box around the
    current position, over a clamped zoom band, and the count of tiles stored. */
module Tiles {
  import opened Geo

  /** The flat half-width, in degrees, of the box cached around the position. */
  const Radius: real := 0.02
  const MinCacheZoom: int := 13
  const MaxCacheZoom: int := 19

  datatype TileId = TileId(z: int, x: int, y: int)

  datatype Box = Box(north: real, south: real, east: real, west: real)

  /** The flat box cached around a position: Radius degrees each way. */
  function Around(c: Coord): (b: Box)
    ensures b.south < c.lat < b.north && b.north - b.south == 2.0 * Radius
    ensures b.west < c.lon < b.east && b.east - b.west == 2.0 * Radius
    ensures (b.north + b.south) / 2.0 == c.lat && (b.east + b.west) / 2.0 == c.lon
  {
    Box(c.lat + Radius, c.lat - Radius, c.lon + Radius, c.lon - Radius)
  }

  function Pow2(z: nat): (n: nat)
    ensures n >= 1
  {
    if z == 0 then 1 else 2 * Pow2(z - 1)
  }

  /** The first zoom level cached for a map zoom: two below, but not under 13. */
  function ZoomLow(zoom: int): (lo: nat)
    ensures lo >= MinCacheZoom && lo >= zoom - 2
    ensures lo == MinCacheZoom || lo == zoom - 2
  {
    if zoom - 2 > MinCacheZoom then zoom - 2 else MinCacheZoom
  }

  /** The last zoom level cached: two above, but not over 19. */
  function ZoomHigh(zoom: int): (hi: int)
    ensures hi <= MaxCacheZoom && hi <= zoom + 2
    ensures hi == MaxCacheZoom || hi == zoom + 2
  {
    if zoom + 2 < MaxCacheZoom then zoom + 2 else MaxCacheZoom
  }

  /** Slippy-map column of a longitude: floor((lon + 180) / 360 * 2^z). */
  function XTile(lon: real, z: nat): (x: int)
    ensures x as real * 360.0 / Pow2(z) as real - 180.0 <= lon
    ensures lon < (x + 1) as real * 360.0 / Pow2(z) as real - 180.0
  {
    var n := Pow2(z) as real;
    var a := (lon + 180.0) / 360.0 * n;
    assert a.Floor as real * 360.0 / n == a.Floor as real / n * 360.0;
    assert (a.Floor + 1) as real * 360.0 / n == (a.Floor + 1) as real / n * 360.0;
    assert a / n * 360.0 == lon + 180.0;
    DivideMonotone(a.Floor as real, a, n);
    DivideStrict(a, (a.Floor + 1) as real, n);
    a.Floor
  }

  lemma DivideMonotone(a: real, b: real, n: real)
    requires a <= b && n > 0.0
    ensures a / n <= b / n
  {
  }

  lemma DivideStrict(a: real, b: real, n: real)
    requires a < b && n > 0.0
    ensures a / n < b / n
  {
  }

  /** Slippy-map row of a latitude, where merc(lat) stands for the Mercator fraction
      (1 - ln(tan(lat) + sec(lat)) / pi) / 2, left abstract. */
  function YTile(merc: real -> real, lat: real, z: nat): (y: int)
    ensures y as real / Pow2(z) as real <= merc(lat) < (y + 1) as real / Pow2(z) as real
  {
    var n := Pow2(z) as real;
    var a := merc(lat) * n;
    assert a / n == merc(lat);
    DivideMonotone(a.Floor as real, a, n);
    DivideStrict(a, (a.Floor + 1) as real, n);
    a.Floor
  }

  /** The projection puts northern latitudes on smaller rows. */
  ghost predicate NonIncreasing(merc: real -> real) {
    forall a: real, b: real :: a <= b ==> merc(b) <= merc(a)
  }

  lemma FloorOfScaled(a: real, b: real, n: nat)
    requires a <= b && n >= 1
    ensures (a * n as real).Floor <= (b * n as real).Floor
  {
    assert b * n as real - a * n as real == (b - a) * n as real;
  }

  lemma XTileMonotone(a: real, b: real, z: nat)
    requires a <= b
    ensures XTile(a, z) <= XTile(b, z)
  {
    DivideMonotone(a + 180.0, b + 180.0, 360.0);
    FloorOfScaled((a + 180.0) / 360.0, (b + 180.0) / 360.0, Pow2(z));
    assert XTile(a, z) == ((a + 180.0) / 360.0 * Pow2(z) as real).Floor;
    assert XTile(b, z) == ((b + 180.0) / 360.0 * Pow2(z) as real).Floor;
  }

  /** One zoom level deeper, each tile splits in two: halving the finer column
      gives the coarser one. */
  lemma XTileZoomRefines(lon: real, z: nat)
    ensures XTile(lon, z + 1) / 2 == XTile(lon, z)
  {
    var a := (lon + 180.0) / 360.0 * Pow2(z) as real;
    assert (lon + 180.0) / 360.0 * Pow2(z + 1) as real == 2.0 * a;
    HalfFloor(a);
  }

  /** The same for rows. */
  lemma YTileZoomRefines(merc: real -> real, lat: real, z: nat)
    ensures YTile(merc, lat, z + 1) / 2 == YTile(merc, lat, z)
  {
    var a := merc(lat) * Pow2(z) as real;
    assert merc(lat) * Pow2(z + 1) as real == 2.0 * a;
    HalfFloor(a);
  }

  lemma HalfFloor(a: real)
    ensures (2.0 * a).Floor / 2 == a.Floor
  {
    assert 2 * a.Floor <= (2.0 * a).Floor < 2 * a.Floor + 2;
  }

  /** At zoom 0 the one tile is column 0 for every longitude in [-180, 180). */
  lemma XTileZoomZero(lon: real)
    requires -180.0 <= lon < 180.0
    ensures XTile(lon, 0) == 0
  {
  }

  /** At zoom 0 the one tile is row 0 for every latitude whose Mercator fraction lies
      in [0, 1), that is, inside the projection's range. */
  lemma YTileZoomZero(merc: real -> real, lat: real)
    requires 0.0 <= merc(lat) < 1.0
    ensures YTile(merc, lat, 0) == 0
  {
  }

  lemma YTileMonotone(merc: real -> real, a: real, b: real, z: nat)
    requires NonIncreasing(merc) && a <= b
    ensures YTile(merc, b, z) <= YTile(merc, a, z)
  {
    FloorOfScaled(merc(b), merc(a), Pow2(z));
    assert YTile(merc, b, z) == (merc(b) * Pow2(z) as real).Floor;
    assert YTile(merc, a, z) == (merc(a) * Pow2(z) as real).Floor;
  }

  /** The (inclusive) tile rectangle of the box at zoom z contains t. */
  predicate InRect(box: Box, merc: real -> real, t: TileId)
    requires t.z >= 0
  {
    XTile(box.west, t.z) <= t.x <= XTile(box.east, t.z) &&
    YTile(merc, box.north, t.z) <= t.y <= YTile(merc, box.south, t.z)
  }

  /** Tiles (z, x, y) for ymin <= y < yEnd, in that order. */
  function Column(z: int, x: int, ymin: int, yEnd: int): seq<TileId>
    decreases yEnd - ymin
  {
    if yEnd <= ymin then [] else Column(z, x, ymin, yEnd - 1) + [TileId(z, x, yEnd - 1)]
  }

  /** Columns xmin <= x < xEnd, each for ymin <= y < yEnd, x outer and y inner. */
  function Rect(z: int, xmin: int, xEnd: int, ymin: int, yEnd: int): seq<TileId>
    decreases xEnd - xmin
  {
    if xEnd <= xmin then [] else Rect(z, xmin, xEnd - 1, ymin, yEnd) + Column(z, xEnd - 1, ymin, yEnd)
  }

  /** The tile rectangle of the box at zoom z. */
  function ZoomTiles(box: Box, merc: real -> real, z: nat): seq<TileId> {
    Rect(z, XTile(box.west, z), XTile(box.east, z) + 1,
         YTile(merc, box.north, z), YTile(merc, box.south, z) + 1)
  }

  /** The rectangles of zoom levels lo <= z < zEnd, ascending. */
  function Band(box: Box, merc: real -> real, lo: nat, zEnd: int): seq<TileId>
    decreases zEnd - lo
  {
    if zEnd <= lo then [] else Band(box, merc, lo, zEnd - 1) + ZoomTiles(box, merc, zEnd - 1)
  }

  /** The whole plan of cacheCurrentArea for a position and a map zoom. */
  function Plan(center: Coord, zoom: int, merc: real -> real): (r: seq<TileId>)
    ensures ZoomHigh(zoom) < ZoomLow(zoom) ==> r == []
  {
    Band(Around(center), merc, ZoomLow(zoom), ZoomHigh(zoom) + 1)
  }

  /** Lexicographic order on (z, x, y). */
  predicate Before(a: TileId, b: TileId) {
    a.z < b.z || (a.z == b.z && (a.x < b.x || (a.x == b.x && a.y < b.y)))
  }

  predicate Sorted(s: seq<TileId>) {
    forall i, j :: 0 <= i < j < |s| ==> Before(s[i], s[j])
  }

  lemma SortedConcat(a: seq<TileId>, b: seq<TileId>)
    requires Sorted(a) && Sorted(b)
    requires forall s, t :: s in a && t in b ==> Before(s, t)
    ensures Sorted(a + b)
  {
    forall i, j | 0 <= i < j < |a + b| ensures Before((a + b)[i], (a + b)[j]) {
      if j < |a| {
        assert (a + b)[i] == a[i] && (a + b)[j] == a[j];
      } else if i >= |a| {
        assert (a + b)[i] == b[i - |a|] && (a + b)[j] == b[j - |a|];
      } else {
        assert (a + b)[i] in a && (a + b)[j] in b;
      }
    }
  }

  lemma {:induction false} ColumnFacts(z: int, x: int, ymin: int, yEnd: int)
    ensures forall t :: t in Column(z, x, ymin, yEnd) <==> t.z == z && t.x == x && ymin <= t.y < yEnd
    ensures Sorted(Column(z, x, ymin, yEnd))
    ensures |Column(z, x, ymin, yEnd)| == if yEnd <= ymin then 0 else yEnd - ymin
    decreases yEnd - ymin
  {
    if ymin < yEnd {
      ColumnFacts(z, x, ymin, yEnd - 1);
      SortedConcat(Column(z, x, ymin, yEnd - 1), [TileId(z, x, yEnd - 1)]);
    }
  }

  lemma {:induction false} RectMembers(z: int, xmin: int, xEnd: int, ymin: int, yEnd: int)
    ensures forall t :: t in Rect(z, xmin, xEnd, ymin, yEnd) <==>
      t.z == z && xmin <= t.x < xEnd && ymin <= t.y < yEnd
    decreases xEnd - xmin
  {
    if xmin < xEnd {
      RectMembers(z, xmin, xEnd - 1, ymin, yEnd);
      ColumnFacts(z, xEnd - 1, ymin, yEnd);
    }
  }

  lemma {:induction false} RectSorted(z: int, xmin: int, xEnd: int, ymin: int, yEnd: int)
    ensures Sorted(Rect(z, xmin, xEnd, ymin, yEnd))
    decreases xEnd - xmin
  {
    if xmin < xEnd {
      var front, col := Rect(z, xmin, xEnd - 1, ymin, yEnd), Column(z, xEnd - 1, ymin, yEnd);
      RectSorted(z, xmin, xEnd - 1, ymin, yEnd);
      RectMembers(z, xmin, xEnd - 1, ymin, yEnd);
      ColumnFacts(z, xEnd - 1, ymin, yEnd);
      assert forall s, t :: s in front && t in col ==> s.z == t.z && s.x < t.x;
      SortedConcat(front, col);
    }
  }

  lemma {:induction false} RectSize(z: int, xmin: int, xEnd: int, ymin: int, yEnd: int)
    ensures |Rect(z, xmin, xEnd, ymin, yEnd)| ==
      if xEnd <= xmin || yEnd <= ymin then 0 else (xEnd - xmin) * (yEnd - ymin)
    decreases xEnd - xmin
  {
    if xmin < xEnd {
      RectSize(z, xmin, xEnd - 1, ymin, yEnd);
      ColumnFacts(z, xEnd - 1, ymin, yEnd);
      if ymin < yEnd {
        assert (xEnd - 1 - xmin) * (yEnd - ymin) + (yEnd - ymin) == (xEnd - xmin) * (yEnd - ymin);
      }
    }
  }

  lemma {:induction false} BandMembers(box: Box, merc: real -> real, lo: nat, zEnd: int)
    ensures forall t :: t in Band(box, merc, lo, zEnd) <==>
      lo <= t.z < zEnd && InRect(box, merc, t)
    decreases zEnd - lo
  {
    if lo < zEnd {
      var z: nat := zEnd - 1;
      BandMembers(box, merc, lo, z);
      RectMembers(z, XTile(box.west, z), XTile(box.east, z) + 1,
                  YTile(merc, box.north, z), YTile(merc, box.south, z) + 1);
    }
  }

  lemma ZoomTilesAtZoom(box: Box, merc: real -> real, z: nat)
    ensures forall t :: t in ZoomTiles(box, merc, z) ==> t.z == z
    ensures Sorted(ZoomTiles(box, merc, z))
  {
    var xMin, xEnd := XTile(box.west, z), XTile(box.east, z) + 1;
    var yMin, yEnd := YTile(merc, box.north, z), YTile(merc, box.south, z) + 1;
    RectMembers(z, xMin, xEnd, yMin, yEnd);
    RectSorted(z, xMin, xEnd, yMin, yEnd);
  }

  lemma {:induction false} BandSorted(box: Box, merc: real -> real, lo: nat, zEnd: int)
    ensures Sorted(Band(box, merc, lo, zEnd))
    ensures forall t :: t in Band(box, merc, lo, zEnd) ==> t.z < zEnd
    decreases zEnd - lo
  {
    if lo < zEnd {
      var z: nat := zEnd - 1;
      var front, rect := Band(box, merc, lo, z), ZoomTiles(box, merc, z);
      BandSorted(box, merc, lo, z);
      ZoomTilesAtZoom(box, merc, z);
      assert forall s, t :: s in front && t in rect ==> s.z < z == t.z;
      SortedConcat(front, rect);
    }
  }

  /** A tile is planned exactly when its zoom is in the clamped band and it lies in
      that zoom's rectangle of the box. */
  lemma PlanMembers(center: Coord, zoom: int, merc: real -> real, t: TileId)
    ensures t in Plan(center, zoom, merc) <==>
      ZoomLow(zoom) <= t.z <= ZoomHigh(zoom) && InRect(Around(center), merc, t)
  {
    BandMembers(Around(center), merc, ZoomLow(zoom), ZoomHigh(zoom) + 1);
  }

  /** The plan runs through the zoom levels in ascending order, and within a zoom
      through x, then y, ascending; hence no tile is planned twice. */
  lemma PlanOrdered(center: Coord, zoom: int, merc: real -> real)
    ensures Sorted(Plan(center, zoom, merc))
    ensures forall i, j :: 0 <= i < j < |Plan(center, zoom, merc)| ==>
      Plan(center, zoom, merc)[i] != Plan(center, zoom, merc)[j]
  {
    BandSorted(Around(center), merc, ZoomLow(zoom), ZoomHigh(zoom) + 1);
  }

  /** The column range is never empty, since west < east. */
  lemma PlanColumnsNonEmpty(center: Coord, z: nat)
    ensures XTile(Around(center).west, z) <= XTile(Around(center).east, z)
  {
    XTileMonotone(Around(center).west, Around(center).east, z);
  }

  /** The row range is never empty for a projection that is monotone in latitude. */
  lemma PlanRowsNonEmpty(center: Coord, merc: real -> real, z: nat)
    requires NonIncreasing(merc)
    ensures YTile(merc, Around(center).north, z) <= YTile(merc, Around(center).south, z)
  {
    YTileMonotone(merc, Around(center).south, Around(center).north, z);
  }

  /** Every point of the box, at every zoom of the band, falls in a planned tile. */
  lemma PlanCoversBox(center: Coord, zoom: int, merc: real -> real, z: nat, lat: real, lon: real)
    requires NonIncreasing(merc)
    requires ZoomLow(zoom) <= z <= ZoomHigh(zoom)
    requires Around(center).south <= lat <= Around(center).north
    requires Around(center).west <= lon <= Around(center).east
    ensures TileId(z, XTile(lon, z), YTile(merc, lat, z)) in Plan(center, zoom, merc)
  {
    var box := Around(center);
    XTileMonotone(box.west, lon, z);
    XTileMonotone(lon, box.east, z);
    YTileMonotone(merc, lat, box.north, z);
    YTileMonotone(merc, box.south, lat, z);
    PlanMembers(center, zoom, merc, TileId(z, XTile(lon, z), YTile(merc, lat, z)));
  }

  /** The planning loops of cacheCurrentArea: z over the band and, per zoom, the
      rectangle's tiles appended by AppendRect. */
  method PlanTiles(center: Coord, zoom: int, merc: real -> real) returns (tiles: seq<TileId>)
    ensures tiles == Plan(center, zoom, merc)
  {
    var box := Around(center);
    var lo, hi := ZoomLow(zoom), ZoomHigh(zoom);
    tiles := [];
    var z: nat := lo;
    while z <= hi
      invariant z == lo || lo < z <= hi + 1  // not started, or within the range
      invariant tiles == Band(box, merc, lo, z)
    {
      tiles := AppendRect(tiles, z, XTile(box.west, z), XTile(box.east, z),
                          YTile(merc, box.north, z), YTile(merc, box.south, z));
      z := z + 1;
    }
  }

  /** The two inner loops of the planner: x from xMin to xMax, y from yMin to yMax,
      both inclusive, pushing (z, x, y). */
  method AppendRect(tiles: seq<TileId>, z: int, xMin: int, xMax: int, yMin: int, yMax: int)
    returns (out: seq<TileId>)
    ensures out == tiles + Rect(z, xMin, xMax + 1, yMin, yMax + 1)
  {
    out := tiles;
    var x := xMin;
    while x <= xMax
      invariant x == xMin || xMin < x <= xMax + 1  // not started, or within the range
      invariant out == tiles + Rect(z, xMin, x, yMin, yMax + 1)
    {
      var y := yMin;
      while y <= yMax
        invariant y == yMin || yMin < y <= yMax + 1  // not started, or within the range
        invariant out == tiles + Rect(z, xMin, x, yMin, yMax + 1) + Column(z, x, yMin, y)
      {
        out := out + [TileId(z, x, y)];
        y := y + 1;
      }
      assert Column(z, x, yMin, y) == Column(z, x, yMin, yMax + 1);
      x := x + 1;
    }
  }

  /** Number of true entries. */
  function CountOk(outcomes: seq<bool>): (n: nat)
    ensures n <= |outcomes|
  {
    if outcomes == [] then 0
    else CountOk(outcomes[..|outcomes| - 1]) + (if outcomes[|outcomes| - 1] then 1 else 0)
  }

  /** A failed fetch in the middle neither counts nor stops the tiles after it. */
  lemma {:induction false} CountOkAcrossFailure(before: seq<bool>, after: seq<bool>)
    ensures CountOk(before + [false] + after) == CountOk(before) + CountOk(after)
    decreases |after|
  {
    if after == [] {
      assert before + [false] + after == before + [false];
      assert (before + [false])[..|before|] == before;
    } else {
      var init := after[..|after| - 1];
      CountOkAcrossFailure(before, init);
      assert (before + [false] + after)[..|before + [false] + after| - 1] == before + [false] + init;
    }
  }

  datatype Status =
    | CachingStarted
    | NoPosition
    | Progress(cached: nat, total: nat)
    | Finished(cached: nat)

  /** The fetch loop of cacheCurrentArea: outcomes[i] says whether fetching and storing
      tiles[i] completed without throwing. A progress status goes out each time the
      count reaches a multiple of 10. */
  method CountCached(tiles: seq<TileId>, outcomes: seq<bool>) returns (cachedCount: nat, progress: seq<Status>)
    requires |outcomes| == |tiles|
    ensures cachedCount == CountOk(outcomes) && cachedCount <= |tiles|
    ensures |progress| == cachedCount / 10
    ensures forall k :: 0 <= k < |progress| ==> progress[k] == Progress(10 * (k + 1), |tiles|)
  {
    cachedCount, progress := 0, [];
    var i := 0;
    while i < |tiles|
      invariant i <= |tiles|
      invariant cachedCount == CountOk(outcomes[..i])
      invariant |progress| == cachedCount / 10
      invariant forall k :: 0 <= k < |progress| ==> progress[k] == Progress(10 * (k + 1), |tiles|)
    {
      assert outcomes[..i + 1][..i] == outcomes[..i];
      if outcomes[i] {
        cachedCount := cachedCount + 1;
        if cachedCount % 10 == 0 {
          progress := progress + [Progress(cachedCount, |tiles|)];
        }
      }
      i := i + 1;
    }
    assert outcomes[..i] == outcomes;
  }
}
