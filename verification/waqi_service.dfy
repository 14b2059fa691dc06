/** The upstream client. The HTTP GET itself is not modelled: its result is
    an `Outcome`, and the service classifies that outcome into the payload or
    an `ApiError`, checking in a fixed order: envelope status, presence of
    `iaqi`, timeout codes, absence of a response, other transport errors,
    and a catch-all 500. */
module WaqiService {
  import opened Wrappers
  import opened Types

  /** What the single GET to the provider produced. */
  datatype Outcome =
      /** A 2xx reply whose body is the envelope `{status, data}`. */
    | Response(status: string, data: Option<Payload>)
      /** An axios error: its `code`, and whether a response was received. */
    | TransportError(code: Option<string>, hasResponse: bool)
      /** An `ApiError` thrown inside the try block. */
    | ApiErr(err: ApiError)
      /** Anything else that was thrown. */
    | Other

  /** The provider as seen from the handler: the outcome of the GET issued
      for a validated latitude/longitude pair. */
  type Upstream = (real, real) -> Outcome

  const INVALID_STATUS_MESSAGE: string := "API externa retornou status inválido"
  const INCOMPLETE_MESSAGE: string := "Dados da API incompletos."
  const TIMEOUT_MESSAGE: string := "Timeout ao buscar dados da API externa"
  const UNAVAILABLE_MESSAGE: string := "API externa indisponível"
  const COMMUNICATION_MESSAGE: string := "Erro ao comunicar com API externa"
  const INTERNAL_MESSAGE: string := "Erro interno ao processar dados"

  /** The axios codes the service treats as a timeout. */
  predicate IsTimeoutCode(code: Option<string>) {
    code == Some("ETIMEDOUT") || code == Some("ECONNABORTED")
  }

  /** The envelope carries a usable payload: status "ok", `data` present, and
      `data.iaqi` present. */
  predicate Usable(o: Outcome) {
    o.Response? && o.status == "ok" && o.data.Some? && o.data.value.iaqi.Some?
  }

  /** The statuses the service itself produces for a failure. */
  predicate ServiceFailureStatus(status: int) {
    status == 500 || status == 502 || status == 503 || status == 504
  }

  function FetchAirQualityDataFromWaqi(o: Outcome): (r: Result<Payload, ApiError>)
    // The payload is returned, unchanged, exactly when the envelope is usable.
    ensures r.Success? <==> Usable(o)
    ensures r.Success? ==> r.value == o.data.value
    // An ApiError raised inside the try block is rethrown as it is; every
    // failure the service raises itself is one of 500, 502, 503 and 504.
    ensures o.ApiErr? ==> r == Failure(o.err)
    ensures !o.ApiErr? && r.Failure? ==> ServiceFailureStatus(r.error.statusCode)
  {
    match o
    case Response(status, data) =>
      if status != "ok" then
        Failure(ApiError(502, INVALID_STATUS_MESSAGE))
      else if data.None? || data.value.iaqi.None? then
        Failure(ApiError(502, INCOMPLETE_MESSAGE))
      else
        Success(data.value)
    case ApiErr(e) =>
      Failure(e)
    case TransportError(code, hasResponse) =>
      if IsTimeoutCode(code) then
        Failure(ApiError(504, TIMEOUT_MESSAGE))
      else if !hasResponse then
        Failure(ApiError(503, UNAVAILABLE_MESSAGE))
      else
        Failure(ApiError(502, COMMUNICATION_MESSAGE))
    case Other =>
      Failure(ApiError(500, INTERNAL_MESSAGE))
  }

  /** The envelope checks: a status other than "ok" is a 502 whatever the
      payload; an "ok" envelope without `data` or without `data.iaqi` is a
      502 as well. */
  lemma EnvelopeRejections(status: string, data: Option<Payload>)
    ensures status != "ok" ==>
      FetchAirQualityDataFromWaqi(Response(status, data)) == Failure(ApiError(502, INVALID_STATUS_MESSAGE))
    ensures status == "ok" && (data.None? || data.value.iaqi.None?) ==>
      FetchAirQualityDataFromWaqi(Response(status, data)) == Failure(ApiError(502, INCOMPLETE_MESSAGE))
  {
  }

  /** Transport errors: a timeout code gives 504 whether or not a response
      arrived (the timeout check comes first); otherwise no response gives
      503 and a response gives 502. */
  lemma TransportClassification(code: Option<string>, hasResponse: bool)
    ensures IsTimeoutCode(code) ==>
      FetchAirQualityDataFromWaqi(TransportError(code, hasResponse)).error.statusCode == 504
    ensures !IsTimeoutCode(code) && !hasResponse ==>
      FetchAirQualityDataFromWaqi(TransportError(code, hasResponse)).error.statusCode == 503
    ensures !IsTimeoutCode(code) && hasResponse ==>
      FetchAirQualityDataFromWaqi(TransportError(code, hasResponse)).error.statusCode == 502
  {
  }

  /** Anything thrown that is neither an ApiError nor an axios error is a 500. */
  lemma OtherIsInternal()
    ensures FetchAirQualityDataFromWaqi(Other) == Failure(ApiError(500, INTERNAL_MESSAGE))
  {
  }
}
