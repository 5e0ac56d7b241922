/** src/Factory/LocationFactory.php: a `Location`, with a `Coordinate` only
    when both ordinates are truthy. */
module LocationFactory {
  import opened Basics
  import opened PhpJson
  import opened Model

  /** `LocationFactory::create($id, $name, $slug, $latitude = null, $longitude = null)`. */
  function Create(id: int, name: string, slug: string, latitude: Json := JNull, longitude: Json := JNull): (l: Location)
    ensures l.id == id && l.name == name && l.slug == slug
    ensures l.coordinate.Some? <==> Truthy(latitude) && Truthy(longitude)
    ensures l.coordinate.Some? ==> l.coordinate.value.latitude == latitude && l.coordinate.value.longitude == longitude
  {
    var coordinate := if Truthy(latitude) && Truthy(longitude) then Some(Coordinate(latitude, longitude)) else None;
    Location(id, name, slug, coordinate)
  }

  /** Called with three arguments, a location never has a coordinate. */
  lemma ThreeArgumentsNoCoordinate(id: int, name: string, slug: string)
    ensures Create(id, name, slug).coordinate == None
  {
  }

  /** An ordinate that is missing, null or zero suppresses the whole
      coordinate: it is never half-filled.  (A post at latitude 0 or
      longitude 0 therefore has no coordinate.) */
  lemma NeverPartial(id: int, name: string, slug: string, latitude: Json, longitude: Json)
    requires latitude in {JNull, JInt(0), JReal(0.0)} || longitude in {JNull, JInt(0), JReal(0.0)}
    ensures Create(id, name, slug, latitude, longitude).coordinate == None
  {
  }
}
