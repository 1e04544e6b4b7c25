# Minimap navigation engine and tile planner, in Dafny

This project models the computational core of the rotating "heads-up" minimap
(`app.js`, class `NFSMinimap`): the per-fix navigation state transition (position
shift, speed selection, heading, bounded trail, running rotation baseline), its demo
mode variant, the wrap-safe angle normalisation used for the rotation, the offline
tile-cache planner with its fetch-counting loop, and the street-label fallback chain.
All arithmetic is exact `real`; the transcendental parts (haversine distance, the
atan2 bearing, the Mercator row fraction, the demo walk's cos/sin) are left abstract
as function-valued fields of the engine object.

Modules, one per component:

- `Geo` (geo.dfy): coordinates, fixes, `Option`.
- `Angles` (angles.dfy): `normalizeAngleForTransition` as a method with its two loops,
  proved against the closed form `Normalize`; JavaScript's `% 360` (`Rem360`) and the
  heading wrap `(deg + 360) % 360` (`HeadingDeg`).
- `Trail` (trail.dfy): the 100-entry FIFO trail step and its many-step behaviour.
- `Tiles` (tiles.dfy): slippy-map tile indices, the plan as a specification function,
  the planning loops, the fetch-count loop and its progress statuses.
- `Street` (street.dfy): the label chosen from a reverse-geocoding answer.
- `Engine` (engine.dfy): class `Minimap` with the fields the source mutates
  (`currentPosition`, `previousPosition`, `currentHeading`, `previousHeading`, `speed`,
  `trailPoints`, `settings`) and class `DemoWalker` with the demo timer's closure state.

Where the code differs from the behaviour the system is designed for, the model follows the code:

- Speed fallback: the intended behaviour derives speed from the previous to the new position. The
  code copies `currentPosition` into `previousPosition` (app.js:305) before
  `calculateSpeed` runs (app.js:306), so the fallback measures the old position against
  itself. `Minimap.UpdatePosition` states this as `distance(c, c) / gpsInterval * 3.6`;
  for a haversine distance this is always 0.
- Angle range: the intended behaviour is a result within (prev - 180, prev + 180]. The code's
  second loop stops at exactly -180 when it comes from below (a difference of -540
  gives -180), so the range is the closed [-180, 180]; `WrapDiff` states both halves.
- Demo mode: the demo tick does not update `previousHeading`, rotates by the raw demo
  heading, and that heading can be negative because JavaScript's `%` keeps the sign
  of the dividend (`Rem360`).
- Duplicates: tiles of different zoom levels differ in `z`, so the whole plan, not
  only each zoom's part, is free of duplicates (`Tiles.PlanOrdered`).

## Model

| member | source | states |
|---|---|---|
| `Angles.WrapDiff` | app.js:92-96 | the wrapped difference lies in [-180, 180]; from above it lands in (-180, 180], from below in [-180, 180); a difference already in range is kept |
| `Angles.Normalize` | app.js:91-98 | the rotation target is within 180 degrees of the previous angle on either side |
| `Angles.NormalizeAngleForTransition` | app.js:91-98 | the two while loops return exactly `Normalize(prev, new)`, a running angle within [-180, 180] of `prev` |
| `Angles.WrapDiffCharacterised` | app.js:94-95 | any value whole turns away from the difference, in the window where the loops stop, equals `WrapDiff` |
| `Angles.NormalizeSameDirection` | app.js:91-98 | the result minus `newAngle` is a whole number of turns |
| `Angles.NormalizeKeepsInRange` | app.js:94-95 | a difference already in [-180, 180], including exactly +-180, returns `newAngle` unchanged |
| `Angles.NormalizeIdempotent` | app.js:91-98 | normalising the result again against the same previous angle changes nothing |
| `Angles.NormalizeUnique` | app.js:91-98 | any angle for the same direction strictly within a half-turn of `prev` is the one returned (shortest path) |
| `Angles.NormalizeAcrossNorth` | app.js:91-98 | from 350 toward 10 the target is 370, not 10 |
| `Angles.Rem360` | app.js:543 | JavaScript `x % 360`: sign of x, magnitude below 360, same direction as x |
| `Angles.HeadingDeg` | app.js:388 | `(deg + 360) % 360` of an atan2 bearing lies in [0, 360) and names the same direction |
| `Trail.Push` | app.js:318-325 | the new position is last; below capacity nothing is dropped; at capacity exactly the oldest entry is dropped and the rest keep their order; the length stays at most 100 |
| `Trail.PushAllKeepsNewest` | app.js:318-325 | after any number of pushes the trail is exactly the newest 100 of old entries and new positions, in push order |
| `Tiles.Pow2` | app.js:500 | `2^z` is at least 1 |
| `Tiles.ZoomLow` | app.js:499 | the first cached zoom is `max(13, zoom - 2)` |
| `Tiles.ZoomHigh` | app.js:499 | the last cached zoom is `min(19, zoom + 2)` |
| `Tiles.Around` | app.js:489-494 | the box is centred on the position, 0.04 degrees tall and 0.04 degrees wide, so each edge lies 0.02 degrees from the centre |
| `Tiles.XTile` | app.js:501-502 | the column index is the tile whose western edge `x * 360 / 2^z - 180` is at or west of the longitude and whose eastern edge is east of it |
| `Tiles.YTile` | app.js:503-504 | the row index is the tile whose fraction range `[y / 2^z, (y+1) / 2^z)` holds the Mercator fraction of the latitude |
| `Tiles.XTileZoomRefines` | app.js:500-502 | one zoom deeper, the column index halved (floor) is the column at the shallower zoom |
| `Tiles.YTileZoomRefines` | app.js:500-504 | one zoom deeper, the row index halved (floor) is the row at the shallower zoom |
| `Tiles.XTileZoomZero` | app.js:500-502 | at zoom 0 every longitude in [-180, 180) falls in column 0 |
| `Tiles.YTileZoomZero` | app.js:500-504 | at zoom 0 every Mercator fraction in [0, 1) falls in row 0 |
| `Tiles.XTileMonotone` | app.js:501-502 | the column index `floor((lon + 180) / 360 * 2^z)` is monotone in longitude |
| `Tiles.YTileMonotone` | app.js:503-504 | the row index is non-increasing in latitude when the Mercator fraction is |
| `Tiles.ColumnFacts` | app.js:507-509 | one column holds exactly the tiles with that z and x and `ymin <= y < yEnd`, ascending in y |
| `Tiles.RectMembers` | app.js:506-510 | a rectangle holds exactly the tiles with its z whose x and y lie in its ranges |
| `Tiles.RectSorted` | app.js:506-510 | a rectangle lists its tiles with x as the outer and y as the inner loop, ascending |
| `Tiles.RectSize` | app.js:506-510 | a rectangle holds width times height tiles |
| `Tiles.ZoomTilesAtZoom` | app.js:499-511 | every tile planned for one zoom level carries that zoom, listed in (x, y) order |
| `Tiles.BandMembers` | app.js:499-511 | the band holds exactly the tiles whose zoom is in range and that lie in their zoom's rectangle |
| `Tiles.BandSorted` | app.js:499-511 | the band lists its tiles in lexicographic (z, x, y) order |
| `Tiles.Plan` | app.js:485-511 | an empty zoom range (last zoom below first) plans no tile |
| `Tiles.PlanMembers` | app.js:489-511 | a tile is planned if and only if its zoom is in `[max(13, zoom-2), min(19, zoom+2)]` and its x and y lie in the inclusive rectangle of the 0.02-degree box at that zoom |
| `Tiles.PlanOrdered` | app.js:499-511 | zoom levels ascend, x is the outer and y the inner loop, and no tile appears twice |
| `Tiles.PlanColumnsNonEmpty` | app.js:489-502 | `xtileMin <= xtileMax`, since west < east |
| `Tiles.PlanRowsNonEmpty` | app.js:489-504 | `ytileMin <= ytileMax` for a projection monotone in latitude |
| `Tiles.PlanCoversBox` | app.js:489-511 | every point of the box, at every zoom of the band, lies in a planned tile |
| `Tiles.PlanTiles` | app.js:485-511 | the planning loops produce exactly `Plan(center, zoom, merc)` |
| `Tiles.AppendRect` | app.js:506-510 | the two inner loops append exactly the inclusive rectangle, x outer and y inner |
| `Tiles.CountOk` | app.js:524 | the number of successful tiles is at most the number attempted |
| `Tiles.CountOkAcrossFailure` | app.js:513-532 | a failed tile neither counts nor stops the count of the tiles after it |
| `Tiles.CountCached` | app.js:513-534 | `cachedCount` is the number of tiles whose fetch and store did not throw, at most `tilesToCache.length`; progress statuses are exactly those at counts 10, 20, ..., each with the total |
| `Street.BeforeComma` | app.js:408 | `split(',')[0]`: a prefix of the display name with no comma, followed by a comma or the end |
| `Street.Label` | app.js:391-414 | no answer keeps the label; no address gives 'Unknown Location'; otherwise the first non-empty of road, suburb, city, else the display name before its first comma, and a missing display name throws and keeps the label |
| `Engine.ReportedUsable` | app.js:344 | a missing or negative reported speed is rejected; a present reading of at least 0 is used and gives a km/h speed of at least 0 |
| `Engine.Shown` | app.js:355-358 | the displayed speed is the stored km/h value, multiplied by 0.621371 only for mph |
| `Engine.DemoWalker.constructor` | app.js:538-540 | the demo walk starts at (40.7128, -74.0060) heading 0 |
| `Engine.DemoWalker.Step` | app.js:543-546 | the heading becomes JavaScript `(heading + delta) % 360`, within (-360, 360), and the position moves 0.0001 along the new heading |
| `Engine.Minimap.constructor` | app.js:2-11 | no positions, heading, rotation baseline and speed 0, empty trail |
| `Engine.Minimap.CalculateSpeed` | app.js:343-361 | a reported speed that is present and not negative gives `s * 3.6`; otherwise distance between the stored previous and current positions over the configured interval times 3.6; the stored speed is never converted |
| `Engine.Minimap.CalculateHeading` | app.js:378-389 | the heading becomes `(bearing + 360) % 360`, which lies in [0, 360) for an atan2 bearing |
| `Engine.Minimap.UpdatePosition` | app.js:299-341 | first fix: the position is set, while previous position, speed and heading stay as they were; later fixes: previous position becomes the old current one, heading is the bearing from it, speed is reported * 3.6 or the self-distance fallback, which is 0 whenever the distance from a point to itself is 0; the heading lies in [0, 360); trail pushed only when shown; rotation baseline becomes `Normalize(old baseline, heading)` only when rotating; the view carries centre, rotation, trail, shown speed, street lookup |
| `Engine.Minimap.FixTrailStep` | app.js:318-325 | with the trail shown, the position is pushed by the 100-entry rule and the trail is reported; otherwise the trail is untouched and nothing is reported |
| `Engine.Minimap.RotationStep` | app.js:327-336 | with rotation on, the baseline becomes `Normalize(old baseline, heading)` and is reported; otherwise it is untouched |
| `Engine.Minimap.DemoTick` | app.js:542-576 | heading random-walks with JavaScript `%`, the position steps 0.0001 along it, speed lies in [40, 80), positions shift, trail pushed with the same rule, rotation baseline untouched |
| `Engine.Minimap.SetShowTrail` | app.js:224-235 | toggling the trail setting leaves the collected points as they are |
| `Engine.Minimap.CacheCurrentArea` | app.js:477-535 | with no position: the 'caching' and 'no position' statuses and nothing planned or fetched; otherwise the plan, the success count and the statuses 'caching', progress at each tenth success, final summary |

## Left out

- Haversine distance, the atan2 bearing, the Mercator row formula and the demo walk's
  cos/sin (app.js:363-376, 384-387, 503-504, 545-546): left abstract as functions given
  to the engine; only the `(deg + 360) % 360` step of the bearing is modelled.
- Floating point: all arithmetic is exact `real`; `Math.round` of the displayed speed
  (app.js:360, 575) is not modelled, the displayed value is reported before rounding.
- A configured interval of 0: the fallback at app.js:352 divides the distance from a
  point to itself (0) by 0, which is NaN in JavaScript; the engine keeps
  `gpsInterval > 0` as part of its invariant instead of modelling NaN.
- The abstract bearing is assumed to return degrees in [-180, 180], the range of
  `atan2` converted to degrees (the `AtanDeg` type).
- Latitudes at or beyond the poles, where the Mercator formula is infinite or NaN: the
  row fraction is an ordinary real here.
- DOM, CSS, canvas and theming (`applySettings`, `applyTransitionDurations`, `initUI`
  except the show-trail switch, `drawCarIcon`, `showStatus`, the CSS `rotate(...)`
  strings): presentation; rotation, trail, shown speed and statuses are returned as values.
- The map widget calls (`L.map`, `tileLayer`, `polyline`, `setView`, `setLatLngs`):
  a foreign library; the view update reports what would be sent.
- Settings persistence (`loadSettings`, `saveSettings`, reset): storage plumbing;
  settings are a constructor argument.
- Geolocation, timers and their restart (`startGPSTracking`, `restartGPSTracking`,
  the demo `setInterval`): each fix or tick is an explicit method call; the random
  draws of the demo tick are its inputs.
- The network and cache storage (`fetch`, `response.json/blob`, `caches.open/put`,
  service worker registration): a tile's fetch-and-store is a given success outcome,
  and a reverse-geocoding answer is a given optional record; the status text strings
  are represented by the `Status` values.
- `handleGPSError` (app.js:417-434): a message switch over browser error codes.
- `Engine.Minimap.UpdatePosition`: does not model the
  asynchronous street lookup itself, only the request to make it.
