/** The pollutant filter as JavaScript evaluates it. `key in POLLUTANT_UNITS`
    also holds for the property names every object inherits from
    `Object.prototype`, and `POLLUTANT_UNITS[key]` then yields an inherited
    member (a function or the prototype object) rather than a unit string.
    The rest of the model uses the intended six-key filter
    (`AirQualityController.Pollutants`); this module states where the two
    differ. */
module InOperator {
  import opened Types
  import opened AirQualityController

  /** The property names a plain object inherits from `Object.prototype`. */
  const OBJECT_PROTOTYPE_KEYS: set<string> := {
    "constructor", "hasOwnProperty", "isPrototypeOf", "propertyIsEnumerable",
    "toLocaleString", "toString", "valueOf", "__proto__",
    "__defineGetter__", "__defineSetter__", "__lookupGetter__", "__lookupSetter__"
  }

  /** `key in POLLUTANT_UNITS`: own keys and inherited ones. */
  predicate InTable(key: string) {
    key in POLLUTANT_UNITS || key in OBJECT_PROTOTYPE_KEYS
  }

  /** What `POLLUTANT_UNITS[key]` reads. */
  datatype UnitValue = UnitString(unit: string) | InheritedMember

  datatype RawPollutant = RawPollutant(id: string, value: real, unit: UnitValue)

  function RawUnit(key: string): UnitValue {
    if key in POLLUTANT_UNITS then UnitString(POLLUTANT_UNITS[key]) else InheritedMember
  }

  /** The filter as written, over the entries read so far plus the last one. */
  function AsWrittenEntries(iaqi: Iaqi): (r: Iaqi)
    ensures |r| <= |iaqi|
    ensures forall k :: 0 <= k < |r| ==> InTable(r[k].0)
  {
    if |iaqi| == 0 then []
    else
      var last := iaqi[|iaqi| - 1];
      if InTable(last.0) then AsWrittenEntries(iaqi[..|iaqi| - 1]) + [last]
      else AsWrittenEntries(iaqi[..|iaqi| - 1])
  }

  /** The `pollutants` list as written: filter, then map with the raw lookup. */
  function AsWrittenPollutants(iaqi: Iaqi): (r: seq<RawPollutant>)
    ensures |r| <= |iaqi|
    ensures forall k :: 0 <= k < |r| ==> InTable(r[k].id)
    ensures forall k :: 0 <= k < |r| ==> (r[k].unit.UnitString? <==> r[k].id in POLLUTANT_UNITS)
  {
    var kept := AsWrittenEntries(iaqi);
    seq(|kept|, k requires 0 <= k < |kept| => RawPollutant(kept[k].0, kept[k].1, RawUnit(kept[k].0)))
  }

  /** A pollutant of the intended output, with its unit as a raw string. */
  function Raw(ps: seq<Pollutant>): (r: seq<RawPollutant>)
    ensures |r| == |ps|
    ensures forall k :: 0 <= k < |ps| ==> r[k].unit == UnitString(ps[k].unit)
  {
    seq(|ps|, k requires 0 <= k < |ps| => RawPollutant(ps[k].id, ps[k].value, UnitString(ps[k].unit)))
  }

  /** An entry named after an inherited property passes the filter as
      written and comes out without a unit; the intended filter drops it. */
  lemma InheritedKeyPassesFilter()
    ensures AsWrittenPollutants([("toString", 1.0)]) == [RawPollutant("toString", 1.0, InheritedMember)]
    ensures Pollutants([("toString", 1.0)]) == []
  {
    var iaqi: Iaqi := [("toString", 1.0)];
    assert iaqi[..0] == [];
    assert AsWrittenEntries(iaqi) == [("toString", 1.0)];
    assert PollutantEntries(iaqi) == [];
  }

  /** When no entry is named after an inherited property, the two filters
      keep the same entries. */
  lemma {:induction false} EntriesAgreeWithoutInheritedKeys(iaqi: Iaqi)
    requires forall i :: 0 <= i < |iaqi| ==> iaqi[i].0 !in OBJECT_PROTOTYPE_KEYS
    ensures AsWrittenEntries(iaqi) == PollutantEntries(iaqi)
  {
    if |iaqi| > 0 {
      var front := iaqi[..|iaqi| - 1];
      assert forall i :: 0 <= i < |front| ==> front[i] == iaqi[i];
      EntriesAgreeWithoutInheritedKeys(front);
    }
  }

  /** ... and so the output as written is the intended one. */
  lemma AsWrittenAgreesWithoutInheritedKeys(iaqi: Iaqi)
    requires forall i :: 0 <= i < |iaqi| ==> iaqi[i].0 !in OBJECT_PROTOTYPE_KEYS
    ensures AsWrittenPollutants(iaqi) == Raw(Pollutants(iaqi))
  {
    EntriesAgreeWithoutInheritedKeys(iaqi);
  }
}
