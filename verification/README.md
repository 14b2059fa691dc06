# airsense-api relay core, in Dafny

This project models the decision logic of a small HTTP relay. The relay answers
`GET /air-quality?lat=…&lon=…` by doing four things in order:

1. It validates the two query values.
2. It calls one upstream air-quality provider (WAQI) once.
3. It classifies the provider's answer or failure into a payload or an `ApiError`.
4. It reshapes the payload into a fixed `AirQualityData` JSON shape.

A global error middleware turns errors into JSON bodies. There is also a fixed
`GET /` status payload, a 404 handler and a PORT default.

The repository holds the pipeline twice:

- a modular copy: `utils/validators.ts`, `services/waqiService.ts`, `controllers/airQualityController.ts`;
- an inline copy in `server.ts`.

`server.ts` is the process that listens. It does not mount `routes.ts` or the
controller. Both copies are modelled:

- The validator and the normalising object literal are textually identical in
  the two copies, so each is defined once (`Validators`, `AirQualityController.Normalise`).
- The inline fetch (`Server.FetchAirQualityData`) is written out on its own.
  `Server.FetchAgreesWithModular` and `Server.ServeAgreesWithModular` prove that
  it matches the service followed by the controller.

The repository never mounts the controller. The modular pipeline is therefore
modelled as the controller placed behind an error middleware like the
server's, one that recognises the controller's own `ApiError` class from
`errors/ApiError` (`Server.ServeModular`). `server.ts`'s middleware tests
`instanceof` against its own class (server.ts:40, 166), so behind that exact
middleware every controller error would answer 500.

Under that assumption, the two pipelines answer every request with the same
status. They also give the same body, except when building the result faults.
That happens when `city` or `time` is missing from a payload that passed the
envelope checks:

- `server.ts` catches the TypeError and rethrows it as `ApiError(500, …)`, so
  the body is `{error: "API Error", …}`.
- The controller forwards the raw TypeError, so the body is
  `{error: "Internal Server Error", …}`.

`Server.MissingCityBodies` states both responses.

Modelling choices:

- The HTTP call is an input. `WaqiService.Outcome` is either an envelope reply,
  an axios transport error (its code, and whether a response arrived), an
  `ApiError`, or anything else thrown.
- The handler takes the upstream as a function `(lat, lon) -> Outcome`. So "the
  upstream is not consulted" is stated as "the response is the same for every
  upstream function".
- JavaScript's `Number(…)` is a caller-supplied `NumberParser = string -> Option<real>`.
  `None` stands for NaN.
- The provider's `iaqi` object is a `seq<(string, real)>` of its entries in
  insertion order.
- A query value is `Option<string>`. JavaScript's `!q` is `Missing(q)`: absent,
  or the empty string.

Facts about the code that the model keeps:

- Error messages are the code's own Portuguese strings.
- PORT also falls back to 3000 when the value parses to 0, since `||` treats 0
  as falsy.
- Normalisation can fault on a payload without `city` or `time`.
- The catch-all 500 body reads "Ocorreu um erro interno no servidor".

## Model

| member | source | states |
|---|---|---|
| `Validators.ValidateCoordinates` | src/utils/validators.ts:3-23 | Succeeds exactly when both values parse and -90 ≤ lat ≤ 90 and -180 ≤ lon ≤ 180 (inclusive). It then returns the parsed values unchanged. Every rejection has status 400. The same function appears at server.ts:114-134. |
| `Validators.ValidationErrorOrder` | src/utils/validators.ts:10-20 | The error follows check order: NaN first, then latitude whatever the longitude, then longitude. |
| `Validators.CornersAccepted` | src/utils/validators.ts:14-20 | lat = ±90 together with lon = ±180 is accepted. |
| `WaqiService.FetchAirQualityDataFromWaqi` | src/services/waqiService.ts:25-67 | Returns the payload unchanged exactly when status is "ok", `data` is present and `data.iaqi` is present. A thrown ApiError is rethrown as it is. Every other failure has status 500, 502, 503 or 504. |
| `WaqiService.EnvelopeRejections` | src/services/waqiService.ts:35-41 | A status other than "ok" gives 502 "invalid status". An "ok" envelope missing `data` or `data.iaqi` gives 502 "incomplete". |
| `WaqiService.TransportClassification` | src/services/waqiService.ts:49-63 | A timeout code gives 504 even when no response arrived. Otherwise no response gives 503, and a response gives 502. |
| `WaqiService.OtherIsInternal` | src/services/waqiService.ts:65 | A thrown value that is neither an ApiError nor an axios error gives 500. |
| `AirQualityController.PollutantEntries` | src/controllers/airQualityController.ts:39-40 | The filtered entries are no more than the input entries, and every one has a known pollutant key. |
| `AirQualityController.ToPollutant` | src/controllers/airQualityController.ts:41-45 | The mapped pollutant keeps the entry's key and value and takes the table's unit for that key. |
| `AirQualityController.Pollutants` | src/controllers/airQualityController.ts:39-45 | The list is no longer than `iaqi`. Every id is one of the six table keys, and its unit is the table's unit for that id. |
| `AirQualityController.PollutantEntriesSelect` | src/controllers/airQualityController.ts:39-40 | The filter output is the input entries at exactly the positions whose key is in the table, in increasing order. |
| `AirQualityController.PollutantsSelect` | src/controllers/airQualityController.ts:39-45 | `pollutants` is an order-preserving subsequence of `iaqi`. It keeps every entry whose key is in the table and no other. Each element is `{id: key, value: v, unit: table[key]}` of its entry. |
| `AirQualityController.WeatherNotPollutant` | src/controllers/airQualityController.ts:7-14 | The keys `t` and `h` never appear in `pollutants`. |
| `AirQualityController.Lookup` | src/controllers/airQualityController.ts:47-48 | A reading is present exactly when some entry has the key. Its value is the value of the first entry with that key. |
| `AirQualityController.LookupDistinct` | src/controllers/airQualityController.ts:47-48 | Object keys are distinct, so the reading is the value of the one entry with that key. |
| `AirQualityController.Weather` | src/controllers/airQualityController.ts:46-49 | Temperature is present exactly when `t` is in `iaqi`, and is then the `v` of the first `t` entry. Humidity follows the same rule with `h`. |
| `AirQualityController.Normalise` | src/controllers/airQualityController.ts:34-50 | Faults (a non-ApiError) exactly when `city`, `time` or `iaqi` is absent. Otherwise `aqi`, `city.name`, `dominentpol` and `time.iso` are copied unchanged, `pollutants` is the filtered and mapped `iaqi`, and `weather` is the `t`/`h` lookup. |
| `AirQualityController.ExampleNormalisation` | src/controllers/airQualityController.ts:34-50 | Entries pm25=42, t=25, h=60 give `pollutants = [{pm25, 42, µg/m³}]` and weather (25, 60). |
| `AirQualityController.GetAirQuality` | src/controllers/airQualityController.ts:16-56 | A missing or empty `lat`/`lon` gives 400, whatever the parser and upstream. A validation error is passed on unchanged. Data comes back exactly for an admitted request with a usable envelope and a normalisable payload, and it is that payload normalised. Any service error reaches `next` unchanged. |
| `Server.Port` | src/server.ts:8 | The port is never 0. It is the parsed value when that is a non-zero number, and 3000 when the variable is unset, NaN or 0. |
| `Server.FetchAirQualityData` | src/server.ts:51-112 | Succeeds exactly when the envelope is usable and the payload can be normalised. A thrown ApiError is kept. Every other failure has status 500, 502, 503 or 504. |
| `Server.FetchAgreesWithModular` | src/server.ts:57-111 | On every outcome, the inline copy equals the service followed by normalisation. The one exception: a normalisation fault becomes ApiError 500 "Erro interno ao processar dados". |
| `Server.AirQualityRoute` | src/server.ts:144-162 | A missing or empty parameter gives 400 before validation. A validation error is passed on. Data comes back exactly for an admitted request with a usable envelope and a normalisable payload, and it is that payload normalised. Any inline-fetch error is passed on unchanged. |
| `Server.ErrorMiddleware` | src/server.ts:165-183 | An ApiError keeps its status, with body `{error: "API Error", message}`. Anything else gives 500 with the fixed "Internal Server Error" body. |
| `Server.Reply` | src/server.ts:155-160 | Data gives 200 with that data. An ApiError gives its own status and message under "API Error". Any other error gives 500 with the fixed "Internal Server Error" body. |
| `Server.Serve` | src/server.ts:136-193 | `GET /` gives the fixed status payload. An unmatched route gives 404 with the fixed "Not Found" body. On `/air-quality`, the route's data gives 200 with that data, and the route's ApiError gives its status and message under "API Error". A missing parameter is the 400 with the required-parameters message. |
| `Server.ServeModular` | src/controllers/airQualityController.ts:52-55 | The controller behind a middleware that recognises its ApiError class: data gives 200 with that data, an ApiError gives its status and message, and any other error gives the fixed 500 body. |
| `Server.RootIsFixed` | src/server.ts:136-142 | `GET /` gives the same 200 response for every parser and upstream. |
| `Server.MissingParametersIndependent` | src/server.ts:150-152 | With a parameter missing, the response is 400 and is the same for every parser and upstream. |
| `Server.ServeAgreesWithModular` | src/server.ts:144-162 | With the controller behind a middleware that recognises its ApiError class, both pipelines answer every request with the same status. They give the same response unless the controller's handler faulted. |
| `Server.ServerErrorsAreApiErrors` | src/server.ts:147-173 | Every error the server's `/air-quality` route answers carries the "API Error" label. |
| `Server.MissingCityBodies` | src/server.ts:71-111 | A usable envelope whose payload lacks `city` gives 500 in both pipelines, with the bodies that differ as described above. |
| `Server.AirQualityStatuses` | src/server.ts:144-162 | If the upstream throws no ApiError of its own, `/air-quality` answers 200, 400, 500, 502, 503 or 504. |
| `Server.ValidRequestAnswers200` | src/server.ts:147-157 | A valid request whose provider answers "ok" with a normalisable payload gets 200 with that payload normalised, in both pipelines. |
| `Server.InvalidCoordinatesAnswer400` | src/server.ts:154 | Present parameters that fail validation get 400 with the validator's message in both pipelines, whatever the upstream. |
| `Server.LatitudeOutOfRangeAnswers400` | src/server.ts:125-127 | A latitude outside [-90, 90] gets 400 with the latitude message, whatever the longitude. |
| `Server.EnvelopeNotOkAnswers502` | src/server.ts:61-63 | An envelope whose status is not "ok" gets 502 with the invalid-status message, the same in both pipelines. |
| `Server.IncompletePayloadAnswers502` | src/server.ts:65-67 | An "ok" envelope without `data` or `data.iaqi` gets 502 with the incomplete-data message, the same in both pipelines. |
| `Server.TimeoutAnswers504` | src/server.ts:96-101 | A timeout code gets 504 whether or not a response arrived, the same in both pipelines. |
| `Server.UnreachableAnswers503` | src/server.ts:103-105 | A non-timeout transport error with no response gets 503, the same in both pipelines. |
| `Server.TransportErrorAnswers502` | src/server.ts:107 | A non-timeout transport error with a response gets 502, the same in both pipelines. |
| `InOperator.AsWrittenEntries` | src/controllers/airQualityController.ts:39-40 | The filter as JavaScript evaluates `key in POLLUTANT_UNITS` keeps only entries whose key is an own or inherited property of the table. |
| `InOperator.AsWrittenPollutants` | src/controllers/airQualityController.ts:39-45 | Every output id passes the `in` test. A unit is a string exactly when the id is one of the six own keys. |
| `InOperator.InheritedKeyPassesFilter` | src/controllers/airQualityController.ts:40 | An entry named `toString` comes out as written with no unit string. The intended filter drops it. |
| `InOperator.EntriesAgreeWithoutInheritedKeys` | src/controllers/airQualityController.ts:39-40 | With no entry named after an inherited property, both filters keep the same entries. |
| `InOperator.AsWrittenAgreesWithoutInheritedKeys` | src/controllers/airQualityController.ts:39-45 | With no such entry, the output as written is the intended `pollutants`. |

## Findings

| source | as written | input that shows it | evidently intended | confidence | as-written member | corrected member |
|---|---|---|---|---|---|---|
| src/controllers/airQualityController.ts:40 (same at src/server.ts:77) | `key in POLLUTANT_UNITS` also holds for names inherited from `Object.prototype`, and `POLLUTANT_UNITS[key]` then reads a function or the prototype object | an `iaqi` entry `toString: {v: 1}` gives a pollutant `toString` with no unit string | keep only the six own keys of the table | not executed; the provider is not known to send such keys | `InOperator.AsWrittenPollutants` (`InOperator.InheritedKeyPassesFilter`) | `AirQualityController.Pollutants` (`AirQualityController.PollutantsSelect`) |

## Left out

- The axios instance and HTTPS agent: the 30 s timeout, forced IPv4, User-Agent and TLS settings. They are network configuration. Their only effect the model keeps is which `Outcome` is observed.
- Building the request URL, including the token and number-to-string formatting. The upstream is a function of the validated coordinates, so it absorbs both.
- JavaScript's `Number(…)` string parsing is a parameter. Whitespace-only strings parsing to 0, and infinities, are whatever that parameter says. A model parser cannot return an infinity, but the range checks would reject one anyway.
- Express routing, HTTP methods, `app.listen`, `res.json` serialisation, `next`, and `routes.ts`, which only registers handlers. `Server.Request` names the three routes the application distinguishes.
- `dotenv`/`process.env` reads and `console.log`/`console.error`. The PORT string is a parameter, and logging has no effect on responses.
- Query values that Express parses into arrays or objects. Parameters are `Option<string>`.
- The two `ApiError` classes, in `server.ts` and `errors/ApiError`, are one datatype here. `errors/ApiError` is not part of this model, and the modular files are never combined with `server.ts`'s middleware in the repository.
- `ApiError.isOperational` is never read, so it is not modelled.
- Payload fields are typed values. An absent `aqi` or `dominentpol`, or an `iaqi` entry without `v`, would be `undefined` and dropped from the JSON. The model carries them as present values. Only the absent objects that make a dereference throw (`city`, `time`, `iaqi`) are modelled. An `iaqi` entry whose value is `null` would make `data.v` (airQualityController.ts:43) throw; entries here always carry a number, so that fault is not modelled.
- `Object.entries` lists integer-like keys first, in ascending order. The model takes the entries in the order given, since pollutant codes are not integer-like.
- `WaqiService.FetchAirQualityDataFromWaqi`: the `ApiErr` outcome may carry any status. The axios call never throws the application's own error class, so in the running code the rethrown ApiError is always one of the service's own 502s.
- `Server.ServeModular`: the controller is modelled behind a middleware that recognises its `errors/ApiError` class. Behind `server.ts`'s own middleware, whose `instanceof` test names the server's class, every controller error would answer 500 "Internal Server Error". The agreement lemmas (`Server.ServeAgreesWithModular` and the per-rule lemmas) hold under that assumption only.
