/** Values shared by the navigation engine and the tile planner. */
module Geo {

  datatype Option<T> = None | Some(value: T)

  /** A WGS84 position in degrees, stored by the engine as the pair [lat, lon]. */
  datatype Coord = Coord(lat: real, lon: real)

  /** One position sample: the coordinate and the speed the positioning source
      reported in metres per second (None when it reported null, undefined or NaN). */
  datatype Fix = Fix(coord: Coord, reportedSpeed: Option<real>)
}
