/** Map positions shared by the quotes page and the tracking map. */
module Geo {
  /** A latitude and longitude in degrees. */
  datatype Coordinates = Coordinates(lat: real, lng: real)

  /** London, the position both pages fall back on. */
  const London: Coordinates := Coordinates(51.5074, -0.1278)
}
