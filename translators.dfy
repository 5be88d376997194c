/** The two enumeration translators of the Tempest message layer: the
    precipitation-type code and the compass octant of a wind direction. */
module Translators {
  import opened PyJson

  /** Names of the precipitation codes 0, 1 and 2, in code order. */
  const PrecipitationNames: seq<string> := ["none", "rain", "hail"]

  /** The codes the translator accepts, under Python's `==` (so `True` is 1). */
  predicate IsPrecipitationCode(code: Json)
  {
    NumericValue(code) in {Some(0.0), Some(1.0), Some(2.0)}
  }

  /** `_precipitation_type_name`: 0, 1, 2 name "none", "rain", "hail"; every
      other value, 3 included, raises ValueError. */
  function PrecipitationTypeName(code: Json): (r: Result<string>)
    ensures r.Ok? <==> IsPrecipitationCode(code)
    ensures r.Ok? ==> PrecipitationNames[NumericValue(code).value.Floor] == r.value
    ensures r.Err? ==> r.error == ValueError
  {
    var v := NumericValue(code);
    if v == Some(0.0) then Ok("none")
    else if v == Some(1.0) then Ok("rain")
    else if v == Some(2.0) then Ok("hail")
    else Err(ValueError)
  }

  /** The code that a precipitation name comes from: the inverse of the translator. */
  function PrecipitationCode(name: string): (k: nat)
    requires name in PrecipitationNames
    ensures k < |PrecipitationNames| && PrecipitationNames[k] == name
  {
    if name == "none" then 0 else if name == "rain" then 1 else 2
  }

  /** Encoding a name as its code and translating it back gives the name. */
  lemma PrecipitationRoundTrip(name: string)
    requires name in PrecipitationNames
    ensures PrecipitationTypeName(Num(PrecipitationCode(name) as real)) == Ok(name)
  {
  }

  /** Translating a code and encoding the name back gives the code's number. */
  lemma PrecipitationCodeRoundTrip(code: Json)
    requires IsPrecipitationCode(code)
    ensures PrecipitationCode(PrecipitationTypeName(code).value) as real == NumericValue(code).value
  {
  }

  /** The "rain + hail" code 3 is not accepted. */
  lemma PrecipitationCodeThreeRejected()
    ensures PrecipitationTypeName(Num(3.0)) == Err(ValueError)
  {
  }

  /** The eight compass octants as (long name, short code), clockwise from North. */
  const Octants: seq<(string, string)> := [
    ("North", "N"), ("Northeast", "NE"), ("East", "E"), ("Southeast", "SE"),
    ("South", "S"), ("Southwest", "SW"), ("West", "W"), ("Northwest", "NW")
  ]

  /** Reference octant of a direction in [0, 360): 45-degree sectors centred on
      the eight headings, each sector closed below and open above, North
      wrapping around 0. */
  function OctantIndex(d: real): (k: nat)
    requires 0.0 <= d < 360.0
    ensures k < 8
  {
    ((d + 22.5) / 45.0).Floor % 8
  }

  /** `_wind_direction`, as written: its comparison chain leaves 337.5 to the
      fallback, whose long name formats the direction (the only such input,
      as WindDirectionFallbackOnlyAtBoundary shows, so the text is fixed). */
  function WindDirection(d: real): (r: (string, string))
    ensures r.1 == "ER" <==> d == 337.5
    ensures d < 0.0 || 360.0 <= d ==> r == Octants[0]
  {
    if d < 22.5 || d > 337.5 then ("North", "N")
    else if d >= 22.5 && d < 67.5 then ("Northeast", "NE")
    else if d >= 67.5 && d < 112.5 then ("East", "E")
    else if d >= 112.5 && d < 157.5 then ("Southeast", "SE")
    else if d >= 157.5 && d < 202.5 then ("South", "S")
    else if d >= 202.5 && d < 247.5 then ("Southwest", "SW")
    else if d >= 247.5 && d < 292.5 then ("West", "W")
    else if d >= 292.5 && d < 337.5 then ("Northwest", "NW")
    else ("ERROR: 337.5", "ER")
  }

  /** Every direction in [0, 360) other than 337.5 gets its reference octant. */
  lemma WindDirectionMatchesOctants(d: real)
    requires 0.0 <= d < 360.0 && d != 337.5
    ensures WindDirection(d) == Octants[OctantIndex(d)]
  {
  }

  /** The fallback is reached by exactly one real input. */
  lemma WindDirectionFallbackOnlyAtBoundary(d: real)
    ensures WindDirection(d) == ("ERROR: 337.5", "ER") <==> d == 337.5
  {
  }

  /** The compass octant with the North sector closed at 337.5, as the
      half-open sectors of WindDirection evidently intend. */
  function CompassOctant(d: real): (r: (string, string))
    ensures r in Octants
    ensures 0.0 <= d < 360.0 ==> r == Octants[OctantIndex(d)]
    ensures d < 0.0 || 360.0 <= d ==> r == Octants[0]
  {
    if d < 22.5 || d >= 337.5 then ("North", "N")
    else if d < 67.5 then ("Northeast", "NE")
    else if d < 112.5 then ("East", "E")
    else if d < 157.5 then ("Southeast", "SE")
    else if d < 202.5 then ("South", "S")
    else if d < 247.5 then ("Southwest", "SW")
    else if d < 292.5 then ("West", "W")
    else ("Northwest", "NW")
  }

  /** The corrected translator differs from the written one only at 337.5. */
  lemma CompassOctantAgreesWithWindDirection(d: real)
    ensures d != 337.5 <==> CompassOctant(d) == WindDirection(d)
  {
  }
}
