/** The request handler of the modular pipeline: the required-parameter
    check, coordinate validation, the upstream fetch, and the normalisation
    of the provider's payload into `AirQualityData`. */
module AirQualityController {
  import opened Wrappers
  import opened Types
  import opened Validators
  import opened WaqiService

  /** The six known pollutant codes and their units. */
  const POLLUTANT_UNITS: map<string, string> := map[
    "pm25" := "µg/m³",
    "pm10" := "µg/m³",
    "o3" := "µg/m³",
    "co" := "ppm",
    "so2" := "µg/m³",
    "no2" := "µg/m³"
  ]

  const REQUIRED_MESSAGE: string := "Parâmetros lat e lon são obrigatórios"

  predicate IsPollutant(key: string) {
    key in POLLUTANT_UNITS
  }

  /** JavaScript's `!q` on a query value: absent or the empty string. */
  predicate Missing(q: Option<string>) {
    q.None? || q.value == ""
  }

  /** `Object.entries(iaqi).filter(([key]) => key in POLLUTANT_UNITS)`,
      defined on the entries read so far plus the last one. */
  function PollutantEntries(iaqi: Iaqi): (r: Iaqi)
    ensures |r| <= |iaqi|
    ensures forall k :: 0 <= k < |r| ==> IsPollutant(r[k].0)
  {
    if |iaqi| == 0 then []
    else
      var last := iaqi[|iaqi| - 1];
      if IsPollutant(last.0) then PollutantEntries(iaqi[..|iaqi| - 1]) + [last]
      else PollutantEntries(iaqi[..|iaqi| - 1])
  }

  /** The `.map` callback: `{id: key, value: data.v, unit: POLLUTANT_UNITS[key]}`. */
  function ToPollutant(entry: Reading): (p: Pollutant)
    requires IsPollutant(entry.0)
    ensures p.id in POLLUTANT_UNITS && p.unit == POLLUTANT_UNITS[p.id]
    ensures (p.id, p.value) == entry
  {
    Pollutant(entry.0, entry.1, POLLUTANT_UNITS[entry.0])
  }

  /** The `pollutants` field of the normalised result. */
  function Pollutants(iaqi: Iaqi): (r: seq<Pollutant>)
    ensures |r| <= |iaqi|
    ensures forall k :: 0 <= k < |r| ==> r[k].id in POLLUTANT_UNITS && r[k].unit == POLLUTANT_UNITS[r[k].id]
  {
    var kept := PollutantEntries(iaqi);
    seq(|kept|, k requires 0 <= k < |kept| => ToPollutant(kept[k]))
  }

  /** `idx` lists, in increasing order, exactly the positions of `iaqi` whose
      key is a known pollutant. */
  ghost predicate PollutantPositions(iaqi: Iaqi, idx: seq<int>) {
    && (forall k :: 0 <= k < |idx| ==> 0 <= idx[k] < |iaqi| && IsPollutant(iaqi[idx[k]].0))
    && (forall k, l :: 0 <= k < l < |idx| ==> idx[k] < idx[l])
    && (forall i :: 0 <= i < |iaqi| && IsPollutant(iaqi[i].0) ==> i in idx)
  }

  /** The filter keeps an order-preserving subsequence of the entries: the
      entries at the known-pollutant positions, in order, and nothing else. */
  lemma {:induction false} PollutantEntriesSelect(iaqi: Iaqi) returns (idx: seq<int>)
    ensures PollutantPositions(iaqi, idx)
    ensures |PollutantEntries(iaqi)| == |idx|
    ensures forall k :: 0 <= k < |idx| ==> PollutantEntries(iaqi)[k] == iaqi[idx[k]]
  {
    if |iaqi| == 0 {
      idx := [];
    } else {
      var n := |iaqi| - 1;
      var front := iaqi[..n];
      var rest := PollutantEntriesSelect(front);
      assert forall i :: 0 <= i < n ==> front[i] == iaqi[i];
      if IsPollutant(iaqi[n].0) {
        idx := rest + [n];
        assert PollutantEntries(iaqi) == PollutantEntries(front) + [iaqi[n]];
        forall i | 0 <= i < |iaqi| && IsPollutant(iaqi[i].0)
          ensures i in idx
        {
          if i < n {
            assert i in rest;
          } else {
            assert idx[|rest|] == n;
          }
        }
      } else {
        idx := rest;
      }
    }
  }

  /** The `pollutants` list is the known-pollutant entries of `iaqi`, each
      mapped to `{id, value, unit}`, in the entries' own order: no entry
      with a known key is dropped, none with an unknown key is kept, and
      nothing is re-sorted. */
  lemma PollutantsSelect(iaqi: Iaqi) returns (idx: seq<int>)
    ensures PollutantPositions(iaqi, idx)
    ensures |Pollutants(iaqi)| == |idx|
    ensures forall k :: 0 <= k < |idx| ==>
      Pollutants(iaqi)[k] == Pollutant(iaqi[idx[k]].0, iaqi[idx[k]].1, POLLUTANT_UNITS[iaqi[idx[k]].0])
  {
    idx := PollutantEntriesSelect(iaqi);
  }

  /** The weather readings `t` and `h` are never reported as pollutants. */
  lemma WeatherNotPollutant(iaqi: Iaqi)
    ensures forall k :: 0 <= k < |Pollutants(iaqi)| ==>
      Pollutants(iaqi)[k].id != "t" && Pollutants(iaqi)[k].id != "h"
  {
  }

  /** `iaqi[key] ? iaqi[key].v : null`: the value of the first entry with the
      given key, or `None` when no entry has it. */
  function Lookup(iaqi: Iaqi, key: string): (r: Option<real>)
    ensures r.Some? <==> exists i :: 0 <= i < |iaqi| && iaqi[i].0 == key
    ensures r.Some? ==> exists i :: 0 <= i < |iaqi| && iaqi[i] == (key, r.value)
                                  && forall j :: 0 <= j < i ==> iaqi[j].0 != key
  {
    if |iaqi| == 0 then None
    else if iaqi[0].0 == key then Some(iaqi[0].1)
    else
      var r := Lookup(iaqi[1..], key);
      assert forall i :: 1 <= i < |iaqi| ==> iaqi[1..][i - 1] == iaqi[i];
      r
  }

  /** The keys of a JavaScript object are distinct. */
  ghost predicate DistinctKeys(iaqi: Iaqi) {
    forall i, j :: 0 <= i < j < |iaqi| ==> iaqi[i].0 != iaqi[j].0
  }

  /** For an object's entries, the lookup returns the value of the one entry
      carrying the key. */
  lemma {:induction false} LookupDistinct(iaqi: Iaqi, i: int)
    requires DistinctKeys(iaqi)
    requires 0 <= i < |iaqi|
    ensures Lookup(iaqi, iaqi[i].0) == Some(iaqi[i].1)
  {
    if i > 0 {
      assert iaqi[0].0 != iaqi[i].0;
      assert iaqi[1..][i - 1] == iaqi[i];
      LookupDistinct(iaqi[1..], i - 1);
    }
  }

  /** The `weather` field: temperature from `t`, humidity from `h`, each the
      `v` of the first entry with that key. */
  function Weather(iaqi: Iaqi): (w: WeatherData)
    ensures w.temperature.Some? <==> exists i :: 0 <= i < |iaqi| && iaqi[i].0 == "t"
    ensures w.temperature.Some? ==> exists i :: 0 <= i < |iaqi| && iaqi[i] == ("t", w.temperature.value)
                                            && forall j :: 0 <= j < i ==> iaqi[j].0 != "t"
    ensures w.humidity.Some? <==> exists i :: 0 <= i < |iaqi| && iaqi[i].0 == "h"
    ensures w.humidity.Some? ==> exists i :: 0 <= i < |iaqi| && iaqi[i] == ("h", w.humidity.value)
                                         && forall j :: 0 <= j < i ==> iaqi[j].0 != "h"
  {
    WeatherData(Lookup(iaqi, "t"), Lookup(iaqi, "h"))
  }

  /** Whether the object literal can be built: `payload.city.name`,
      `payload.time.iso` and `Object.entries(payload.iaqi)` throw a
      TypeError when their object is absent. */
  predicate Normalisable(p: Payload) {
    p.city.Some? && p.time.Some? && p.iaqi.Some?
  }

  /** The object literal of the handler: scalar fields copied from their
      payload paths, pollutants filtered and mapped, weather looked up. */
  function Normalise(p: Payload): (r: Result<AirQualityData, Thrown>)
    ensures r.Success? <==> Normalisable(p)
    ensures r.Failure? ==> r.error == Fault
    ensures r.Success? ==>
      && r.value.aqi == p.aqi
      && r.value.location == p.city.value.name
      && r.value.dominantPollutant == p.dominentpol
      && r.value.lastUpdate == p.time.value.iso
      && r.value.pollutants == Pollutants(p.iaqi.value)
      && r.value.weather == Weather(p.iaqi.value)
  {
    if p.city.None? || p.time.None? || p.iaqi.None? then
      Failure(Fault)
    else
      Success(AirQualityData(
        p.aqi,
        p.city.value.name,
        p.dominentpol,
        p.time.value.iso,
        Pollutants(p.iaqi.value),
        Weather(p.iaqi.value)))
  }

  /** The request gets past the parameter check and the validator. */
  predicate Admitted(lat: Option<string>, lon: Option<string>, number: NumberParser) {
    !Missing(lat) && !Missing(lon) && ValidateCoordinates(lat.value, lon.value, number).Success?
  }

  /** The outcome of the GET an admitted request issues, for its validated
      coordinates. */
  function UpstreamOutcome(lat: Option<string>, lon: Option<string>, number: NumberParser, upstream: Upstream): (o: Outcome)
    requires Admitted(lat, lon, number)
    ensures exists c :: ValidateCoordinates(lat.value, lon.value, number) == Success(c)
                        && ValidLatitude(c.lat) && ValidLongitude(c.lon) && o == upstream(c.lat, c.lon)
  {
    var c := ValidateCoordinates(lat.value, lon.value, number).value;
    upstream(c.lat, c.lon)
  }

  /** `getAirQuality`: what the handler passes to `res.json` (Success) or to
      `next` (Failure). */
  function GetAirQuality(lat: Option<string>, lon: Option<string>, number: NumberParser, upstream: Upstream)
    : (r: Result<AirQualityData, Thrown>)
    // A missing or empty parameter is rejected before validation or fetch:
    // the result depends on neither the parser nor the upstream.
    ensures Missing(lat) || Missing(lon) ==> r == Failure(Api(ApiError(400, REQUIRED_MESSAGE)))
    // A validation error is passed on as it is, before any fetch.
    ensures !Missing(lat) && !Missing(lon) && ValidateCoordinates(lat.value, lon.value, number).Failure? ==>
      r == Failure(Api(ValidateCoordinates(lat.value, lon.value, number).error))
    // Data is produced exactly for an admitted request whose envelope is
    // usable and whose payload can be normalised.
    ensures r.Success? <==>
      && Admitted(lat, lon, number)
      && var o := UpstreamOutcome(lat, lon, number, upstream);
      && Usable(o) && Normalisable(o.data.value)
    // For an admitted request, a usable payload is normalised and a service
    // error reaches `next` unchanged.
    ensures Admitted(lat, lon, number) ==>
      var o := UpstreamOutcome(lat, lon, number, upstream);
      && (Usable(o) ==> r == Normalise(o.data.value))
      && (!Usable(o) ==> r == Failure(Api(FetchAirQualityDataFromWaqi(o).error)))
  {
    if Missing(lat) || Missing(lon) then
      Failure(Api(ApiError(400, REQUIRED_MESSAGE)))
    else
      match ValidateCoordinates(lat.value, lon.value, number)
      case Failure(e) => Failure(Api(e))
      case Success(c) =>
        match FetchAirQualityDataFromWaqi(upstream(c.lat, c.lon))
        case Failure(e) => Failure(Api(e))
        case Success(payload) => Normalise(payload)
  }

  /** The worked example: pm25, t and h in the payload give one pollutant and
      both weather readings. */
  lemma ExampleNormalisation()
    ensures Normalise(Payload(50.0, Some(City("X")), "pm25", Some(Time("2024-01-01T00:00:00Z")),
                              Some([("pm25", 42.0), ("t", 25.0), ("h", 60.0)])))
      == Success(AirQualityData(50.0, "X", "pm25", "2024-01-01T00:00:00Z",
                                [Pollutant("pm25", 42.0, "µg/m³")],
                                WeatherData(Some(25.0), Some(60.0))))
  {
    var iaqi: Iaqi := [("pm25", 42.0), ("t", 25.0), ("h", 60.0)];
    assert iaqi[..1] == [("pm25", 42.0)] && iaqi[..2] == [("pm25", 42.0), ("t", 25.0)];
    assert PollutantEntries(iaqi[..1]) == [("pm25", 42.0)];
    assert PollutantEntries(iaqi) == [("pm25", 42.0)];
    assert Pollutants(iaqi) == [Pollutant("pm25", 42.0, "µg/m³")];
    assert Lookup(iaqi[1..], "t") == Some(25.0);
    assert Lookup(iaqi[2..], "h") == Some(60.0);
    assert Weather(iaqi) == WeatherData(Some(25.0), Some(60.0));
  }
}
