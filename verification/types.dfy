/** The shapes exchanged by the relay: the provider's payload, the normalised
    output (`AirQualityData`), the error body (`ErrorResponse`) and the
    application error (`ApiError`) with what a `catch` clause can receive. */
module Types {
  import opened Wrappers

  /** One entry of the provider's `iaqi` object: a reading code and its `v`. */
  type Reading = (string, real)

  /** The `iaqi` object as the sequence of its entries, in insertion order. */
  type Iaqi = seq<Reading>

  datatype City = City(name: string)

  datatype Time = Time(iso: string)

  /** The provider's `data` object. Nested objects the relay dereferences
      (`city`, `time`, `iaqi`) may be absent. */
  datatype Payload = Payload(
    aqi: real,
    city: Option<City>,
    dominentpol: string,
    time: Option<Time>,
    iaqi: Option<Iaqi>)

  datatype Pollutant = Pollutant(id: string, value: real, unit: string)

  /** `null` in the JSON output is `None`. */
  datatype WeatherData = WeatherData(temperature: Option<real>, humidity: Option<real>)

  datatype AirQualityData = AirQualityData(
    aqi: real,
    location: string,
    dominantPollutant: string,
    lastUpdate: string,
    pollutants: seq<Pollutant>,
    weather: WeatherData)

  datatype ErrorResponse = ErrorResponse(error: string, message: string)

  /** The application error class: an HTTP status and a message. */
  datatype ApiError = ApiError(statusCode: int, message: string)

  /** What reaches a `catch` clause or the error middleware: an `ApiError`,
      or any other thrown value (a TypeError from dereferencing a missing
      field, for one). */
  datatype Thrown = Api(err: ApiError) | Fault
}
