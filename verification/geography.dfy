/**
 * Places: countries, cities, landmarks and the like, with an optional centre point whose
 * coordinates are range-checked, a parent place, child places and names over time.
 */
module Geography {
  import opened Wrappers
  import opened Bounds
  import Json

  /** The closed set of kinds of place. */
  datatype GeographyType =
    | Continent
    | Country
    | Region
    | Province
    | City
    | Village
    | Landmark
    | WaterBody
    | Mountain
    | Other

  /** The wire value of each kind. */
  function GeographyTypeValue(t: GeographyType): string {
    match t
    case Continent => "continent"
    case Country => "country"
    case Region => "region"
    case Province => "province"
    case City => "city"
    case Village => "village"
    case Landmark => "landmark"
    case WaterBody => "water_body"
    case Mountain => "mountain"
    case Other => "other"
  }

  /** The kind named by a wire value; anything else is rejected. */
  function ParseGeographyType(s: string): (r: Option<GeographyType>)
    ensures r.Some? ==> GeographyTypeValue(r.value) == s
  {
    match s
    case "continent" => Some(Continent)
    case "country" => Some(Country)
    case "region" => Some(Region)
    case "province" => Some(Province)
    case "city" => Some(City)
    case "village" => Some(Village)
    case "landmark" => Some(Landmark)
    case "water_body" => Some(WaterBody)
    case "mountain" => Some(Mountain)
    case "other" => Some(Other)
    case _ => None
  }

  /** Every kind is read back from its own wire value, so the ten values are distinct. */
  lemma GeographyTypeRoundTrip(t: GeographyType)
    ensures ParseGeographyType(GeographyTypeValue(t)) == Some(t)
  {
  }

  /** A point on Earth; latitude in [-90, 90], longitude in [-180, 180], elevation in metres. */
  datatype Coordinate = Coordinate(
    latitude: Latitude,
    longitude: Longitude,
    elevation: Option<real> := None)

  /** Building a coordinate: rejected exactly when either angle is out of range. */
  function NewCoordinate(latitude: real, longitude: real, elevation: Option<real> := None): (r: Option<Coordinate>)
    ensures r.Some? <==> IsLatitude(latitude) && IsLongitude(longitude)
    ensures r.Some? ==>
      r.value.latitude as real == latitude && r.value.longitude as real == longitude &&
      r.value.elevation == elevation
  {
    if IsLatitude(latitude) && IsLongitude(longitude) then Some(Coordinate(latitude, longitude, elevation))
    else None
  }

  /** A place as it was during a period: its name then and who ruled it. */
  datatype TemporalGeography = TemporalGeography(
    periodStart: string,
    periodEnd: Option<string> := None,
    name: string,
    alternateNames: seq<string> := [],
    rulingEntity: Option<string> := None,
    boundaries: Option<Json.Members> := None)

  /** A reference to a place; its coordinates are optional and unchecked. */
  datatype GeographicReference = GeographicReference(
    geographyId: string,
    name: string,
    latitude: Option<real> := None,
    longitude: Option<real> := None)

  /** A place, with the identity and authorship fields every stored entity has. */
  datatype Geography = Geography(
    id: string,
    createdBy: string,
    lastModifiedBy: string,
    name: string,
    geographyType: GeographyType,
    alternateNames: seq<string> := [],
    description: string,
    centerCoordinate: Option<Coordinate> := None,
    boundaries: Option<Json.Members> := None,
    parentGeographyId: Option<string> := None,
    childGeographies: seq<string> := [],
    temporalVariants: seq<TemporalGeography> := [],
    climate: Option<string> := None,
    geology: Option<string> := None,
    sourceOfTruth: Option<string> := None,
    confidence: Confidence := DefaultConfidence,
    conflictNotes: Option<string> := None)

  /**
   * Building a place with an explicit confidence: rejected exactly when it lies outside
   * [0, 1]; otherwise every field is as given.
   */
  function NewGeography(id: string, createdBy: string, lastModifiedBy: string, name: string,
                        geographyType: GeographyType, description: string, confidence: real): (r: Option<Geography>)
    ensures r.Some? <==> 0.0 <= confidence <= 1.0
    ensures r.Some? ==>
      && r.value.id == id && r.value.createdBy == createdBy && r.value.lastModifiedBy == lastModifiedBy
      && r.value.name == name && r.value.geographyType == geographyType && r.value.description == description
      && r.value.confidence == confidence
      && r.value.centerCoordinate.None? && r.value.parentGeographyId.None?
      && r.value.alternateNames == [] && r.value.childGeographies == [] && r.value.temporalVariants == []
  {
    match CheckConfidence(confidence)
    case None => None
    case Some(c) =>
      Some(Geography(id, createdBy, lastModifiedBy, name, geographyType, description := description, confidence := c))
  }

  /** What a place gets when only its required fields are given. */
  lemma GeographyDefaults(id: string, author: string, name: string, t: GeographyType, description: string)
    ensures Geography(id, author, author, name, t, description := description).centerCoordinate.None?
    ensures Geography(id, author, author, name, t, description := description).parentGeographyId.None?
    ensures Geography(id, author, author, name, t, description := description).alternateNames == []
    ensures Geography(id, author, author, name, t, description := description).childGeographies == []
    ensures Geography(id, author, author, name, t, description := description).temporalVariants == []
    ensures Geography(id, author, author, name, t, description := description).confidence == 0.5
  {
  }
}
