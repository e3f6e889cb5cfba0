/**
 * Geographic values shared by both screens. No arithmetic is ever done on
 * coordinates, so latitude and longitude are carried as plain `real`s.
 */
module Geo {

  /** A recorded position: one element of the trail. */
  datatype Coordinate = Coordinate(latitude: real, longitude: real)

  /** The map's visible region: a centre plus the two spans. */
  datatype Region = Region(latitude: real, longitude: real, latitudeDelta: real, longitudeDelta: real)
  {
    /** The centre of the region as a coordinate. */
    function Center(): Coordinate {
      Coordinate(latitude, longitude)
    }
  }

  /** The span both screens start with, and the one a place search restores. */
  const DefaultDelta: real := 0.05
}
