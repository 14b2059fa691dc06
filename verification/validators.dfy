/** Coordinate validation: parse both query values as numbers, reject NaN,
    then reject a latitude outside [-90, 90], then a longitude outside
    [-180, 180], all with status 400. */
module Validators {
  import opened Wrappers
  import opened Types

  datatype Coordinates = Coordinates(lat: real, lon: real)

  /** JavaScript's `Number(x)` on a string: `None` stands for NaN. The
      conversion itself is IEEE floating-point parsing and is supplied by
      the caller. */
  type NumberParser = string -> Option<real>

  const INVALID_NUMBER_MESSAGE: string := "Coordenadas devem ser números válidos"
  const LATITUDE_MESSAGE: string := "Latitude deve estar entre -90 e 90"
  const LONGITUDE_MESSAGE: string := "Longitude deve estar entre -180 e 180"

  /** The coordinate invariant, inclusive at both ends. */
  predicate ValidLatitude(lat: real) {
    -90.0 <= lat <= 90.0
  }

  predicate ValidLongitude(lon: real) {
    -180.0 <= lon <= 180.0
  }

  function ValidateCoordinates(lat: string, lon: string, number: NumberParser): (r: Result<Coordinates, ApiError>)
    // Success exactly when both parse and both lie in range, and then the
    // parsed values are returned as they are.
    ensures r.Success? <==>
      && number(lat).Some? && number(lon).Some?
      && ValidLatitude(number(lat).value) && ValidLongitude(number(lon).value)
    ensures r.Success? ==> r.value == Coordinates(number(lat).value, number(lon).value)
    // Every rejection is a client error.
    ensures r.Failure? ==> r.error.statusCode == 400
  {
    var latitude := number(lat);
    var longitude := number(lon);
    if latitude.None? || longitude.None? then
      Failure(ApiError(400, INVALID_NUMBER_MESSAGE))
    else if latitude.value < -90.0 || latitude.value > 90.0 then
      Failure(ApiError(400, LATITUDE_MESSAGE))
    else if longitude.value < -180.0 || longitude.value > 180.0 then
      Failure(ApiError(400, LONGITUDE_MESSAGE))
    else
      Success(Coordinates(latitude.value, longitude.value))
  }

  /** When several checks fail, the reported error is the first in check
      order: NaN, then latitude (whatever the longitude), then longitude. */
  lemma ValidationErrorOrder(lat: string, lon: string, number: NumberParser)
    ensures number(lat).None? || number(lon).None? ==>
      ValidateCoordinates(lat, lon, number) == Failure(ApiError(400, INVALID_NUMBER_MESSAGE))
    ensures number(lat).Some? && number(lon).Some? && !ValidLatitude(number(lat).value) ==>
      ValidateCoordinates(lat, lon, number) == Failure(ApiError(400, LATITUDE_MESSAGE))
    ensures (number(lat).Some? && number(lon).Some? && ValidLatitude(number(lat).value)
             && !ValidLongitude(number(lon).value)) ==>
      ValidateCoordinates(lat, lon, number) == Failure(ApiError(400, LONGITUDE_MESSAGE))
  {
  }

  /** The bounds are inclusive: the four corners of the range are accepted. */
  lemma CornersAccepted(lat: string, lon: string, number: NumberParser)
    requires number(lat) == Some(90.0) || number(lat) == Some(-90.0)
    requires number(lon) == Some(180.0) || number(lon) == Some(-180.0)
    ensures ValidateCoordinates(lat, lon, number).Success?
  {
  }
}
