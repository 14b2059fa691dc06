/** The monolithic server: its own inline copy of the fetch-and-normalise
    step, the `/air-quality` and `/` routes, the global error middleware,
    the 404 handler and the PORT default. The copies of the validator and of
    the normalising object literal are textually the same as the modular
    ones and are shared; the inline fetch is modelled separately and proved
    to agree with the service followed by the controller's normalisation. */
module Server {
  import opened Wrappers
  import opened Types
  import opened Validators
  import opened WaqiService
  import opened AirQualityController

  /** The routes the application distinguishes. */
  datatype Request =
    | Root
    | AirQuality(lat: Option<string>, lon: Option<string>)
    | Unmatched

  datatype Body =
    | DataBody(data: AirQualityData)
    | ErrorBody(response: ErrorResponse)
    | StatusBody(status: string, message: string, version: string)

  datatype HttpResponse = HttpResponse(status: int, body: Body)

  const DEFAULT_PORT: real := 3000.0

  const API_ERROR_LABEL: string := "API Error"
  const INTERNAL_ERROR_BODY: ErrorResponse :=
    ErrorResponse("Internal Server Error", "Ocorreu um erro interno no servidor")
  const NOT_FOUND_RESPONSE: HttpResponse :=
    HttpResponse(404, ErrorBody(ErrorResponse("Not Found", "Rota não encontrada")))
  const ROOT_RESPONSE: HttpResponse :=
    HttpResponse(200, StatusBody("ok", "Air Quality API", "1.0.0"))

  /** `Number(process.env.PORT) || 3000`: `Number(undefined)` is NaN, and
      `||` falls back on NaN and on 0. */
  function Port(env: Option<string>, number: NumberParser): (port: real)
    ensures port != 0.0
    ensures env.Some? && number(env.value).Some? && number(env.value).value != 0.0 ==>
      port == number(env.value).value
    ensures env.None? || number(env.value).None? || number(env.value) == Some(0.0) ==>
      port == DEFAULT_PORT
  {
    var parsed := if env.None? then None else number(env.value);
    if parsed.Some? && parsed.value != 0.0 then parsed.value else DEFAULT_PORT
  }

  /** `fetchAirQualityData`: the GET, the envelope checks and the object
      literal inside one try block. A TypeError raised while building the
      literal is neither an ApiError nor an axios error, so the catch block
      falls through to the final `throw` with status 500. */
  function FetchAirQualityData(o: Outcome): (r: Result<AirQualityData, ApiError>)
    ensures r.Success? <==> Usable(o) && Normalisable(o.data.value)
    ensures o.ApiErr? ==> r == Failure(o.err)
    ensures !o.ApiErr? && r.Failure? ==> ServiceFailureStatus(r.error.statusCode)
  {
    match o
    case Response(status, data) =>
      if status != "ok" then
        Failure(ApiError(502, INVALID_STATUS_MESSAGE))
      else if data.None? || data.value.iaqi.None? then
        Failure(ApiError(502, INCOMPLETE_MESSAGE))
      else
        (match Normalise(data.value)
         case Success(d) => Success(d)
         case Failure(_) => Failure(ApiError(500, INTERNAL_MESSAGE)))
    case ApiErr(e) =>
      Failure(e)
    case TransportError(code, hasResponse) =>
      if code == Some("ETIMEDOUT") || code == Some("ECONNABORTED") then
        Failure(ApiError(504, TIMEOUT_MESSAGE))
      else if !hasResponse then
        Failure(ApiError(503, UNAVAILABLE_MESSAGE))
      else
        Failure(ApiError(502, COMMUNICATION_MESSAGE))
    case Other =>
      Failure(ApiError(500, INTERNAL_MESSAGE))
  }

  /** The inline copy agrees with the service followed by the controller's
      normalisation on every outcome; the only difference is that a fault
      while normalising becomes an ApiError with status 500 instead of
      escaping as a non-ApiError. */
  lemma FetchAgreesWithModular(o: Outcome)
    ensures FetchAirQualityDataFromWaqi(o).Failure? ==>
      FetchAirQualityData(o) == Failure(FetchAirQualityDataFromWaqi(o).error)
    ensures FetchAirQualityDataFromWaqi(o).Success? ==>
      var n := Normalise(FetchAirQualityDataFromWaqi(o).value);
      && (n.Success? ==> FetchAirQualityData(o) == Success(n.value))
      && (n.Failure? ==> FetchAirQualityData(o) == Failure(ApiError(500, INTERNAL_MESSAGE)))
  {
  }

  /** The `/air-quality` handler: the required-parameter check, validation,
      then the inline fetch. Everything it can throw is an ApiError. */
  function AirQualityRoute(lat: Option<string>, lon: Option<string>, number: NumberParser, upstream: Upstream)
    : (r: Result<AirQualityData, ApiError>)
    ensures Missing(lat) || Missing(lon) ==> r == Failure(ApiError(400, REQUIRED_MESSAGE))
    ensures !Missing(lat) && !Missing(lon) && ValidateCoordinates(lat.value, lon.value, number).Failure? ==>
      r == Failure(ValidateCoordinates(lat.value, lon.value, number).error)
    // Data is produced exactly for an admitted request whose envelope is
    // usable and whose payload can be normalised, and it is that payload
    // normalised.
    ensures r.Success? <==>
      && Admitted(lat, lon, number)
      && var o := UpstreamOutcome(lat, lon, number, upstream);
      && Usable(o) && Normalisable(o.data.value)
    ensures r.Success? ==>
      r.value == Normalise(UpstreamOutcome(lat, lon, number, upstream).data.value).value
    // For an admitted request, whatever the inline fetch throws is passed on.
    ensures Admitted(lat, lon, number) ==>
      r == FetchAirQualityData(UpstreamOutcome(lat, lon, number, upstream))
  {
    if Missing(lat) || Missing(lon) then
      Failure(ApiError(400, REQUIRED_MESSAGE))
    else
      var c :- ValidateCoordinates(lat.value, lon.value, number);
      FetchAirQualityData(upstream(c.lat, c.lon))
  }

  /** The global error middleware: an ApiError keeps its status and message
      under the "API Error" label; anything else is a 500 with a fixed body
      that reveals nothing about the error. */
  function ErrorMiddleware(t: Thrown): (resp: HttpResponse)
    ensures t.Api? ==> resp.status == t.err.statusCode
    ensures t.Api? ==> resp.body == ErrorBody(ErrorResponse(API_ERROR_LABEL, t.err.message))
    ensures t.Fault? ==> resp == HttpResponse(500, ErrorBody(INTERNAL_ERROR_BODY))
    ensures resp.body.ErrorBody?
  {
    match t
    case Api(e) => HttpResponse(e.statusCode, ErrorBody(ErrorResponse(API_ERROR_LABEL, e.message)))
    case Fault => HttpResponse(500, ErrorBody(INTERNAL_ERROR_BODY))
  }

  /** A handler result: `res.json(data)` or `next(error)` into the middleware. */
  function Reply(r: Result<AirQualityData, Thrown>): (resp: HttpResponse)
    ensures r.Success? <==> resp.status == 200 && resp.body.DataBody?
    ensures r.Success? ==> resp == HttpResponse(200, DataBody(r.value))
    ensures r.Failure? && r.error.Api? ==>
      resp == HttpResponse(r.error.err.statusCode, ErrorBody(ErrorResponse(API_ERROR_LABEL, r.error.err.message)))
    ensures r.Failure? && r.error.Fault? ==> resp == HttpResponse(500, ErrorBody(INTERNAL_ERROR_BODY))
  {
    match r
    case Success(d) => HttpResponse(200, DataBody(d))
    case Failure(t) => ErrorMiddleware(t)
  }

  /** The whole application on one request. */
  function Serve(req: Request, number: NumberParser, upstream: Upstream): (resp: HttpResponse)
    ensures req.Root? ==> resp == ROOT_RESPONSE
    ensures req.Unmatched? ==> resp == NOT_FOUND_RESPONSE
    ensures req.AirQuality? ==>
      (resp.body.DataBody? <==> AirQualityRoute(req.lat, req.lon, number, upstream).Success?)
    // The route's data is answered with 200; the route's ApiError with its
    // own status and message under the "API Error" label.
    ensures req.AirQuality? ==>
      var route := AirQualityRoute(req.lat, req.lon, number, upstream);
      && (route.Success? ==> resp == HttpResponse(200, DataBody(route.value)))
      && (route.Failure? ==>
            resp == HttpResponse(route.error.statusCode, ErrorBody(ErrorResponse(API_ERROR_LABEL, route.error.message))))
    ensures req.AirQuality? && (Missing(req.lat) || Missing(req.lon)) ==>
      resp == HttpResponse(400, ErrorBody(ErrorResponse(API_ERROR_LABEL, REQUIRED_MESSAGE)))
  {
    match req
    case Root => ROOT_RESPONSE
    case Unmatched => NOT_FOUND_RESPONSE
    case AirQuality(lat, lon) =>
      match AirQualityRoute(lat, lon, number, upstream)
      case Success(d) => Reply(Success(d))
      case Failure(e) => Reply(Failure(Api(e)))
  }

  /** The controller's handler behind an error middleware like the server's
      that recognises the controller's ApiError class. (The server's own
      middleware tests for its own class; the repository never combines
      the two.) */
  function ServeModular(lat: Option<string>, lon: Option<string>, number: NumberParser, upstream: Upstream): (resp: HttpResponse)
    ensures resp.body.DataBody? <==> GetAirQuality(lat, lon, number, upstream).Success?
    ensures var r := GetAirQuality(lat, lon, number, upstream);
      && (r.Success? ==> resp == HttpResponse(200, DataBody(r.value)))
      && (r.Failure? && r.error.Api? ==>
            resp == HttpResponse(r.error.err.statusCode, ErrorBody(ErrorResponse(API_ERROR_LABEL, r.error.err.message))))
      && (r.Failure? && r.error.Fault? ==> resp == HttpResponse(500, ErrorBody(INTERNAL_ERROR_BODY)))
  {
    Reply(GetAirQuality(lat, lon, number, upstream))
  }

  /** `GET /` answers the fixed status payload whatever the parser and the
      upstream do. */
  lemma RootIsFixed(number: NumberParser, upstream: Upstream, number': NumberParser, upstream': Upstream)
    ensures Serve(Root, number, upstream) == Serve(Root, number', upstream')
    ensures Serve(Root, number, upstream).status == 200
  {
  }

  /** The handler rejects missing parameters without consulting the parser
      or the upstream: the response is the same for any of them. */
  lemma MissingParametersIndependent(lat: Option<string>, lon: Option<string>,
                                     number: NumberParser, upstream: Upstream,
                                     number': NumberParser, upstream': Upstream)
    requires Missing(lat) || Missing(lon)
    ensures Serve(AirQuality(lat, lon), number, upstream) == Serve(AirQuality(lat, lon), number', upstream')
    ensures Serve(AirQuality(lat, lon), number, upstream).status == 400
  {
  }

  /** With the controller behind a middleware that recognises its ApiError
      class (`ServeModular`), the two pipelines answer with the same status
      on every request, and with the same response whenever the payload can
      be normalised. */
  lemma ServeAgreesWithModular(lat: Option<string>, lon: Option<string>, number: NumberParser, upstream: Upstream)
    ensures Serve(AirQuality(lat, lon), number, upstream).status == ServeModular(lat, lon, number, upstream).status
    ensures GetAirQuality(lat, lon, number, upstream) != Failure(Fault) ==>
      Serve(AirQuality(lat, lon), number, upstream) == ServeModular(lat, lon, number, upstream)
  {
    if !Missing(lat) && !Missing(lon) {
      var c := ValidateCoordinates(lat.value, lon.value, number);
      if c.Success? {
        FetchAgreesWithModular(upstream(c.value.lat, c.value.lon));
      }
    }
  }

  /** On `/air-quality` the server only ever answers with the "API Error"
      label: every error the route raises is an ApiError. The modular
      pipeline answers "Internal Server Error" when normalisation faults. */
  lemma ServerErrorsAreApiErrors(lat: Option<string>, lon: Option<string>, number: NumberParser, upstream: Upstream)
    ensures Serve(AirQuality(lat, lon), number, upstream).body.ErrorBody? ==>
      Serve(AirQuality(lat, lon), number, upstream).body.response.error == API_ERROR_LABEL
  {
  }

  /** A payload without `city` is a 500 in both pipelines, but with different
      bodies. */
  lemma MissingCityBodies(lat: string, lon: string, number: NumberParser, upstream: Upstream, p: Payload)
    requires lat != "" && lon != ""
    requires ValidateCoordinates(lat, lon, number).Success?
    requires var c := ValidateCoordinates(lat, lon, number).value;
      upstream(c.lat, c.lon) == Response("ok", Some(p))
    requires p.iaqi.Some? && p.city.None?
    ensures Serve(AirQuality(Some(lat), Some(lon)), number, upstream)
      == HttpResponse(500, ErrorBody(ErrorResponse(API_ERROR_LABEL, INTERNAL_MESSAGE)))
    ensures ServeModular(Some(lat), Some(lon), number, upstream)
      == HttpResponse(500, ErrorBody(INTERNAL_ERROR_BODY))
  {
  }

  /** If the upstream never throws an ApiError of its own, every status the
      air-quality route answers is one the application defines. */
  lemma AirQualityStatuses(lat: Option<string>, lon: Option<string>, number: NumberParser, upstream: Upstream)
    requires forall a, b :: !upstream(a, b).ApiErr?
    ensures var s := Serve(AirQuality(lat, lon), number, upstream).status;
      s == 200 || s == 400 || ServiceFailureStatus(s)
  {
    if !Missing(lat) && !Missing(lon) {
      var c := ValidateCoordinates(lat.value, lon.value, number);
      if c.Success? {
        assert !upstream(c.value.lat, c.value.lon).ApiErr?;
      }
    }
  }

  /** A valid request whose provider answers "ok" with a payload that can be
      normalised is answered 200 with that payload normalised, by both
      pipelines. */
  lemma ValidRequestAnswers200(lat: Option<string>, lon: Option<string>, number: NumberParser,
                               upstream: Upstream, p: Payload)
    requires Admitted(lat, lon, number)
    requires UpstreamOutcome(lat, lon, number, upstream) == Response("ok", Some(p))
    requires Normalisable(p)
    ensures Serve(AirQuality(lat, lon), number, upstream) == HttpResponse(200, DataBody(Normalise(p).value))
    ensures ServeModular(lat, lon, number, upstream) == HttpResponse(200, DataBody(Normalise(p).value))
  {
  }

  /** Present parameters that fail validation are answered 400 with the
      validator's message, by both pipelines, whatever the upstream. */
  lemma InvalidCoordinatesAnswer400(lat: string, lon: string, number: NumberParser, upstream: Upstream)
    requires lat != "" && lon != ""
    requires ValidateCoordinates(lat, lon, number).Failure?
    ensures var e := ValidateCoordinates(lat, lon, number).error;
      && e.statusCode == 400
      && Serve(AirQuality(Some(lat), Some(lon)), number, upstream)
           == HttpResponse(400, ErrorBody(ErrorResponse(API_ERROR_LABEL, e.message)))
      && ServeModular(Some(lat), Some(lon), number, upstream)
           == HttpResponse(400, ErrorBody(ErrorResponse(API_ERROR_LABEL, e.message)))
  {
  }

  /** A latitude outside [-90, 90] is answered 400 whatever the longitude. */
  lemma LatitudeOutOfRangeAnswers400(lat: string, lon: string, number: NumberParser, upstream: Upstream)
    requires lat != "" && lon != ""
    requires number(lat).Some? && number(lon).Some? && !ValidLatitude(number(lat).value)
    ensures Serve(AirQuality(Some(lat), Some(lon)), number, upstream)
      == HttpResponse(400, ErrorBody(ErrorResponse(API_ERROR_LABEL, LATITUDE_MESSAGE)))
    ensures ServeModular(Some(lat), Some(lon), number, upstream).status == 400
  {
    ValidationErrorOrder(lat, lon, number);
  }

  /** An envelope whose status is not "ok" is answered 502. */
  lemma EnvelopeNotOkAnswers502(lat: Option<string>, lon: Option<string>, number: NumberParser,
                                upstream: Upstream, status: string, data: Option<Payload>)
    requires Admitted(lat, lon, number)
    requires UpstreamOutcome(lat, lon, number, upstream) == Response(status, data)
    requires status != "ok"
    ensures Serve(AirQuality(lat, lon), number, upstream)
      == HttpResponse(502, ErrorBody(ErrorResponse(API_ERROR_LABEL, INVALID_STATUS_MESSAGE)))
    ensures ServeModular(lat, lon, number, upstream) == Serve(AirQuality(lat, lon), number, upstream)
  {
  }

  /** An "ok" envelope without `data` or without `data.iaqi` is answered 502. */
  lemma IncompletePayloadAnswers502(lat: Option<string>, lon: Option<string>, number: NumberParser,
                                    upstream: Upstream, data: Option<Payload>)
    requires Admitted(lat, lon, number)
    requires UpstreamOutcome(lat, lon, number, upstream) == Response("ok", data)
    requires data.None? || data.value.iaqi.None?
    ensures Serve(AirQuality(lat, lon), number, upstream)
      == HttpResponse(502, ErrorBody(ErrorResponse(API_ERROR_LABEL, INCOMPLETE_MESSAGE)))
    ensures ServeModular(lat, lon, number, upstream) == Serve(AirQuality(lat, lon), number, upstream)
  {
  }

  /** A timeout is answered 504, whether or not a response arrived. */
  lemma TimeoutAnswers504(lat: Option<string>, lon: Option<string>, number: NumberParser,
                          upstream: Upstream, code: Option<string>, hasResponse: bool)
    requires Admitted(lat, lon, number)
    requires UpstreamOutcome(lat, lon, number, upstream) == TransportError(code, hasResponse)
    requires IsTimeoutCode(code)
    ensures Serve(AirQuality(lat, lon), number, upstream)
      == HttpResponse(504, ErrorBody(ErrorResponse(API_ERROR_LABEL, TIMEOUT_MESSAGE)))
    ensures ServeModular(lat, lon, number, upstream) == Serve(AirQuality(lat, lon), number, upstream)
  {
  }

  /** A transport error with no response that is not a timeout is answered 503. */
  lemma UnreachableAnswers503(lat: Option<string>, lon: Option<string>, number: NumberParser,
                              upstream: Upstream, code: Option<string>)
    requires Admitted(lat, lon, number)
    requires UpstreamOutcome(lat, lon, number, upstream) == TransportError(code, false)
    requires !IsTimeoutCode(code)
    ensures Serve(AirQuality(lat, lon), number, upstream)
      == HttpResponse(503, ErrorBody(ErrorResponse(API_ERROR_LABEL, UNAVAILABLE_MESSAGE)))
    ensures ServeModular(lat, lon, number, upstream) == Serve(AirQuality(lat, lon), number, upstream)
  {
  }

  /** A transport error with a response that is not a timeout is answered 502. */
  lemma TransportErrorAnswers502(lat: Option<string>, lon: Option<string>, number: NumberParser,
                                 upstream: Upstream, code: Option<string>)
    requires Admitted(lat, lon, number)
    requires UpstreamOutcome(lat, lon, number, upstream) == TransportError(code, true)
    requires !IsTimeoutCode(code)
    ensures Serve(AirQuality(lat, lon), number, upstream)
      == HttpResponse(502, ErrorBody(ErrorResponse(API_ERROR_LABEL, COMMUNICATION_MESSAGE)))
    ensures ServeModular(lat, lon, number, upstream) == Serve(AirQuality(lat, lon), number, upstream)
  {
  }
}
