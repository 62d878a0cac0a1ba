/** The literal tables of const.py: the severity scale, the sensor icons,
    the API host and its endpoint paths. */
module Const {
  import opened Wrappers

  /** The `STATES` table: pollen-level code to severity ordinal. */
  const STATES: map<string, int> := map[
    "i.h." := 0,
    "L" := 1,
    "L-M" := 2,
    "M" := 3,
    "M-H" := 4,
    "H" := 5,
    "H-H+" := 6,
    "H+" := 7
  ]

  /** The level codes from lowest to highest, in the order the table lists them. */
  const SEVERITY_SCALE: seq<string> := ["i.h.", "L", "L-M", "M", "M-H", "H", "H-H+", "H+"]

  /** `STATES.get(code)`: the ordinal of a level code, nothing for any other string. */
  function Severity(code: string): (r: Option<int>)
    ensures r.Some? <==> code in SEVERITY_SCALE
    ensures r.Some? ==> 0 <= r.value < |SEVERITY_SCALE| && SEVERITY_SCALE[r.value] == code
  {
    if code in STATES then Some(STATES[code]) else None
  }

  /** No two level codes share an ordinal. */
  lemma SeverityInjective(a: string, b: string)
    requires Severity(a).Some? && Severity(a) == Severity(b)
    ensures a == b
  {
  }

  /** The ordinals used are exactly 0..7. */
  lemma SeverityValues()
    ensures STATES.Values == {0, 1, 2, 3, 4, 5, 6, 7}
  {
    forall n | 0 <= n < 8
      ensures n in STATES.Values
    {
      assert STATES[SEVERITY_SCALE[n]] == n;
    }
  }

  /** Ordinals rise strictly along the scale, from "i.h." at 0 to "H+" at 7. */
  lemma {:induction false} SeverityIncreasing(i: int, j: int)
    requires 0 <= i < j < |SEVERITY_SCALE|
    ensures Severity(SEVERITY_SCALE[i]).Some? && Severity(SEVERITY_SCALE[j]).Some?
    ensures Severity(SEVERITY_SCALE[i]).value < Severity(SEVERITY_SCALE[j]).value
    ensures Severity("i.h.") == Some(0) && Severity("H+") == Some(7)
  {
    SeverityAt(i);
    SeverityAt(j);
  }

  /** Position on the scale and ordinal coincide. */
  lemma SeverityAt(i: int)
    requires 0 <= i < |SEVERITY_SCALE|
    ensures Severity(SEVERITY_SCALE[i]) == Some(i)
  {
    var r := Severity(SEVERITY_SCALE[i]);
    assert r.Some? && SEVERITY_SCALE[r.value] == SEVERITY_SCALE[i];
    ScaleDistinct(r.value, i);
  }

  lemma ScaleDistinct(i: int, j: int)
    requires 0 <= i < |SEVERITY_SCALE| && 0 <= j < |SEVERITY_SCALE|
    requires SEVERITY_SCALE[i] == SEVERITY_SCALE[j]
    ensures i == j
  {
  }

  /** The `SENSOR_ICONS` table: Material Design icon per pollen id. */
  const SENSOR_ICONS: map<string, string> := map[
    "al" := "mdi:leaf",
    "alm" := "mdi:leaf",
    "ambrosia" := "mdi:leaf",
    "asp" := "mdi:leaf",
    "bok" := "mdi:leaf",
    "bjork" := "mdi:leaf",
    "ek" := "mdi:leaf",
    "grabo" := "mdi:flower",
    "gras" := "mdi:flower",
    "hassel" := "mdi:leaf",
    "salg_vide" := "mdi:leaf",
    "default" := "mdi:leaf"
  ]

  /** Every icon is a leaf or a flower, and there is a fallback entry. */
  lemma SensorIconsShape()
    ensures forall k | k in SENSOR_ICONS :: SENSOR_ICONS[k] == "mdi:leaf" || SENSOR_ICONS[k] == "mdi:flower"
    ensures "default" in SENSOR_ICONS
  {
  }

  const BASE_URL: string := "https://api.pollenrapporten.se"

  /** The `Endpoints` enumeration. */
  datatype Endpoint = PollenTypes | Regions | Forecasts | PollenLevelDefinitions

  /** The path of an endpoint; every path lies under the `/v1/` API version. */
  function Path(e: Endpoint): (p: string)
    ensures |p| > 4 && p[..4] == "/v1/"
  {
    match e
    case PollenTypes => "/v1/pollen-types"
    case Regions => "/v1/regions"
    case Forecasts => "/v1/forecasts"
    case PollenLevelDefinitions => "/v1/pollen-level-definitions"
  }

  /** Distinct endpoints have distinct paths. */
  lemma PathInjective(e: Endpoint, f: Endpoint)
    requires Path(e) == Path(f)
    ensures e == f
  {
  }
}
