/** The four sample records of the Tempest UDP protocol and their positional
    decoders (the `from_msg` class methods). Each decoder reads fixed indices
    of a JSON array; Air, Sky and Station read the only row of `obs`,
    RapidWind the flat array `ob`. Timestamps are kept as epoch seconds. */
module Observations {
  import opened PyJson
  import opened Translators

  datatype RapidWind = RapidWind(windSpeed: real, windDirection: real, timestamp: real)

  datatype AirObservation = AirObservation(
    pressure: real,
    airTemperature: real,
    relativeHumidity: real,
    lightningStrikesCount: int,
    lightningStrikeAverageDistance: real,
    timestamp: real)

  datatype SkyObservation = SkyObservation(
    timestamp: real,
    illuminance: real,
    uvIndex: real,
    rainAccumulated: real,
    windLull: real,
    windAvg: real,
    windGust: real,
    windDirection: real,
    solarRadiation: real,
    rainAccumulatedDay: Option<real>,
    precipitationType: string)

  datatype StationObservation = StationObservation(
    timestamp: real,
    windLull: real,
    windAvg: real,
    windGust: real,
    windDirection: real,
    pressure: real,
    airTemperature: real,
    relativeHumidity: real,
    illuminance: real,
    uvIndex: real,
    solarRadiation: real,
    rainAccumulated: real,
    precipitationType: string,
    lightningStrikesCount: int,
    lightningStrikeAverageDistance: real)

  /** The four message kinds the router knows. */
  datatype Kind = RapidWindKind | AirKind | SkyKind | StationKind

  /** A decoded sample of any of the four kinds. */
  datatype Observation =
    | RapidWindObs(rapidWind: RapidWind)
    | AirObs(air: AirObservation)
    | SkyObs(sky: SkyObservation)
    | StationObs(station: StationObservation)
  {
    function Kind(): Kind
    {
      match this
      case RapidWindObs(_) => RapidWindKind
      case AirObs(_) => AirKind
      case SkyObs(_) => SkyKind
      case StationObs(_) => StationKind
    }
  }

  // ---------------------------------------------------------------------------
  // Positional reading, stated on the row rather than by the decoders' steps

  /** Position `i` of `row` holds a number (or a bool, which Python counts as one). */
  predicate NumberAt(row: Json, i: nat)
  {
    row.Arr? && i < |row.items| && NumericValue(row.items[i]).Some?
  }

  function NumberIn(row: Json, i: nat): real
    requires NumberAt(row, i)
  {
    NumericValue(row.items[i]).value
  }

  /** `float(row[i])`. */
  function FloatAt(row: Json, i: nat): (r: Result<real>)
    ensures r.Ok? <==> NumberAt(row, i)
    ensures r.Ok? ==> r.value == NumberIn(row, i)
  {
    var raw :- Index(row, i);
    Float(raw)
  }

  /** `int(row[i])`. */
  function IntAt(row: Json, i: nat): (r: Result<int>)
    ensures r.Ok? <==> NumberAt(row, i)
    ensures r.Ok? ==> r.value == Trunc(NumberIn(row, i))
  {
    var raw :- Index(row, i);
    Int(raw)
  }

  /** `datetime.datetime.fromtimestamp(row[i])`, as epoch seconds. */
  function TimestampAt(row: Json, i: nat): (r: Result<real>)
    ensures r.Ok? <==> NumberAt(row, i)
    ensures r.Ok? ==> r.value == NumberIn(row, i)
  {
    var raw :- Index(row, i);
    Timestamp(raw)
  }

  /** Every position in `indices` holds a number. */
  predicate NumbersAt(row: Json, indices: set<nat>)
  {
    forall i :: i in indices ==> NumberAt(row, i)
  }

  // ---------------------------------------------------------------------------
  // RapidWind

  /** `RapidWind.from_msg`: speed from `ob[1]`, direction from `ob[2]`,
      timestamp from `ob[0]`, converted in that order, no length check. */
  function RapidWindFromMsg(msg: Json): (r: Result<RapidWind>)
    ensures r.Ok? ==> msg.Obj? && "ob" in msg.fields
  {
    var ob :- Subscript(msg, "ob");
    var speed :- FloatAt(ob, 1);
    var direction :- FloatAt(ob, 2);
    var time :- FloatAt(ob, 0);
    Ok(RapidWind(speed, direction, time))
  }

  /** RapidWind decoding succeeds exactly when `ob` holds numbers at 0, 1 and
      2, and then reads them as timestamp, speed and direction. */
  lemma RapidWindDecoding(msg: Json)
    ensures RapidWindFromMsg(msg).Ok? <==>
      msg.Obj? && "ob" in msg.fields && NumbersAt(msg.fields["ob"], {0, 1, 2})
    ensures RapidWindFromMsg(msg).Ok? ==>
      var ob := msg.fields["ob"];
      RapidWindFromMsg(msg).value == RapidWind(NumberIn(ob, 1), NumberIn(ob, 2), NumberIn(ob, 0))
  {
    if msg.Obj? && "ob" in msg.fields && NumbersAt(msg.fields["ob"], {0, 1, 2}) {
      var ob := msg.fields["ob"];
      assert NumberAt(ob, 0) && NumberAt(ob, 1) && NumberAt(ob, 2);
    }
  }

  // ---------------------------------------------------------------------------
  // The single observation row of obs_air, obs_sky and obs_st

  /** `msg["obs"][0]` followed by `assert len(msg["obs"]) == 1`: the row is
      taken before the row count is checked. */
  function SingleRow(msg: Json): (r: Result<Json>)
    ensures r.Ok? ==> msg.Obj? && "obs" in msg.fields && Length(msg.fields["obs"]) == Ok(1)
    ensures msg.Obj? && "obs" in msg.fields && msg.fields["obs"].Arr? ==>
      var rows := msg.fields["obs"].items;
      && (|rows| == 0 ==> r == Err(IndexError))
      && (|rows| >= 2 ==> r == Err(AssertionError))
      && (|rows| == 1 ==> r == Ok(rows[0]))
  {
    var obs :- Subscript(msg, "obs");
    var row :- Index(obs, 0);
    match Length(obs)
    case Err(e) => Err(e)
    case Ok(count) => if count != 1 then Err(AssertionError) else Ok(row)
  }

  // ---------------------------------------------------------------------------
  // AirObservation

  /** Positions of an obs_air row that the decoder reads. */
  const AirIndices: set<nat> := {0, 1, 2, 3, 4, 5}

  /** The field conversions of `AirObservation.from_msg` on its row. */
  function AirFromRow(row: Json): (r: Result<AirObservation>)
    ensures r.Ok? ==> row.Arr? && |row.items| >= 6
  {
    var time :- TimestampAt(row, 0);
    var pressure :- FloatAt(row, 1);
    var temperature :- FloatAt(row, 2);
    var humidity :- FloatAt(row, 3);
    var count :- IntAt(row, 4);
    var distance :- FloatAt(row, 5);
    Ok(AirObservation(pressure, temperature, humidity, count, distance, time))
  }

  /** `AirObservation.from_msg`. */
  function AirFromMsg(msg: Json): (r: Result<AirObservation>)
    ensures r.Ok? ==> msg.Obj? && "obs" in msg.fields && Length(msg.fields["obs"]) == Ok(1)
    ensures msg.Obj? && "obs" in msg.fields && msg.fields["obs"].Arr? ==>
      var rows := msg.fields["obs"].items;
      && (|rows| == 0 ==> r == Err(IndexError))
      && (|rows| >= 2 ==> r == Err(AssertionError))
      && (|rows| == 1 ==> r == AirFromRow(rows[0]))
  {
    var row :- SingleRow(msg);
    AirFromRow(row)
  }

  /** An air row decodes exactly when positions 0 to 5 hold numbers; the
      lightning count is the truncated number at 4. */
  lemma AirDecoding(row: Json)
    ensures AirFromRow(row).Ok? <==> NumbersAt(row, AirIndices)
    ensures AirFromRow(row).Ok? ==> AirFromRow(row).value == AirObservation(
      NumberIn(row, 1), NumberIn(row, 2), NumberIn(row, 3),
      Trunc(NumberIn(row, 4)), NumberIn(row, 5), NumberIn(row, 0))
  {
    if NumbersAt(row, AirIndices) {
      assert NumberAt(row, 0) && NumberAt(row, 1) && NumberAt(row, 2);
      assert NumberAt(row, 3) && NumberAt(row, 4) && NumberAt(row, 5);
    }
  }

  // ---------------------------------------------------------------------------
  // SkyObservation

  /** Positions of an obs_sky row that must hold numbers; 11 may also be
      None, and 8, 9 and 13 are not read. */
  const SkyIndices: set<nat> := {0, 1, 2, 3, 4, 5, 6, 7, 10, 12}

  /** Position 11 as the decoder keeps it: None stays None, anything else is
      converted with `float()`. */
  predicate DailyRainReadable(row: Json)
  {
    row.Arr? && 11 < |row.items| && (row.items[11].Null? || NumericValue(row.items[11]).Some?)
  }

  function DailyRainIn(row: Json): Option<real>
    requires DailyRainReadable(row)
  {
    if row.items[11].Null? then None else NumericValue(row.items[11])
  }

  /** The field conversions of `SkyObservation.from_msg` on its row. */
  function SkyFromRow(row: Json): (r: Result<SkyObservation>)
    ensures r.Ok? ==> row.Arr? && |row.items| >= 13
  {
    var time :- TimestampAt(row, 0);
    var illuminance :- FloatAt(row, 1);
    var uv :- FloatAt(row, 2);
    var rain :- FloatAt(row, 3);
    var lull :- FloatAt(row, 4);
    var avg :- FloatAt(row, 5);
    var gust :- FloatAt(row, 6);
    var direction :- FloatAt(row, 7);
    var solar :- FloatAt(row, 10);
    var rawDayRain :- Index(row, 11);
    var dayRain :- if rawDayRain.Null? then Ok(None)
                   else var x :- Float(rawDayRain); Ok(Some(x));
    var code :- IntAt(row, 12);
    var precipitation :- PrecipitationTypeName(Num(code as real));
    Ok(SkyObservation(time, illuminance, uv, rain, lull, avg, gust, direction,
                      solar, dayRain, precipitation))
  }

  /** `SkyObservation.from_msg`. */
  function SkyFromMsg(msg: Json): (r: Result<SkyObservation>)
    ensures r.Ok? ==> msg.Obj? && "obs" in msg.fields && Length(msg.fields["obs"]) == Ok(1)
    ensures msg.Obj? && "obs" in msg.fields && msg.fields["obs"].Arr? ==>
      var rows := msg.fields["obs"].items;
      && (|rows| == 0 ==> r == Err(IndexError))
      && (|rows| >= 2 ==> r == Err(AssertionError))
      && (|rows| == 1 ==> r == SkyFromRow(rows[0]))
  {
    var row :- SingleRow(msg);
    SkyFromRow(row)
  }

  /** The rows the sky decoder accepts: the numeric positions hold numbers,
      position 11 holds a number or None, and the code at 12, truncated by
      `int()`, is 0, 1 or 2. */
  predicate SkyAccepts(row: Json)
  {
    && NumbersAt(row, SkyIndices)
    && DailyRainReadable(row)
    && Trunc(NumberIn(row, 12)) in {0, 1, 2}
  }

  /** A sky row decodes exactly when the decoder accepts it. */
  lemma SkyAcceptance(row: Json)
    ensures SkyFromRow(row).Ok? <==> SkyAccepts(row)
  {
    if NumbersAt(row, SkyIndices) {
      assert NumberAt(row, 0) && NumberAt(row, 1) && NumberAt(row, 2) && NumberAt(row, 3);
      assert NumberAt(row, 4) && NumberAt(row, 5) && NumberAt(row, 6) && NumberAt(row, 7);
      assert NumberAt(row, 10) && NumberAt(row, 12);
    }
  }

  /** An accepted sky row decodes position by position; 8, 9 and 13 are not read. */
  lemma SkyDecoding(row: Json)
    requires SkyAccepts(row)
    ensures SkyFromRow(row) == Ok(SkyObservation(
      NumberIn(row, 0), NumberIn(row, 1), NumberIn(row, 2), NumberIn(row, 3),
      NumberIn(row, 4), NumberIn(row, 5), NumberIn(row, 6), NumberIn(row, 7),
      NumberIn(row, 10), DailyRainIn(row), PrecipitationNames[Trunc(NumberIn(row, 12))]))
  {
    assert NumberAt(row, 0) && NumberAt(row, 1) && NumberAt(row, 2) && NumberAt(row, 3);
    assert NumberAt(row, 4) && NumberAt(row, 5) && NumberAt(row, 6) && NumberAt(row, 7);
    assert NumberAt(row, 10) && NumberAt(row, 12);
  }

  // ---------------------------------------------------------------------------
  // StationObservation

  /** Positions of an obs_st row that must hold numbers; 13 is the
      precipitation code, and 5, 16 and 17 are not read. */
  const StationIndices: set<nat> := {0, 1, 2, 3, 4, 6, 7, 8, 9, 10, 11, 12, 14, 15}

  /** The field conversions of `StationObservation.from_msg` on its row. The
      precipitation code at 13 goes to the translator without `int()`. */
  function StationFromRow(row: Json): (r: Result<StationObservation>)
    ensures r.Ok? ==> row.Arr? && |row.items| >= 16
  {
    var time :- TimestampAt(row, 0);
    var lull :- FloatAt(row, 1);
    var avg :- FloatAt(row, 2);
    var gust :- FloatAt(row, 3);
    var direction :- FloatAt(row, 4);
    var pressure :- FloatAt(row, 6);
    var temperature :- FloatAt(row, 7);
    var humidity :- FloatAt(row, 8);
    var illuminance :- FloatAt(row, 9);
    var uv :- FloatAt(row, 10);
    var solar :- FloatAt(row, 11);
    var rain :- FloatAt(row, 12);
    var rawCode :- Index(row, 13);
    var precipitation :- PrecipitationTypeName(rawCode);
    var count :- IntAt(row, 15);
    var distance :- FloatAt(row, 14);
    Ok(StationObservation(time, lull, avg, gust, direction, pressure, temperature,
                          humidity, illuminance, uv, solar, rain, precipitation,
                          count, distance))
  }

  /** `StationObservation.from_msg`. */
  function StationFromMsg(msg: Json): (r: Result<StationObservation>)
    ensures r.Ok? ==> msg.Obj? && "obs" in msg.fields && Length(msg.fields["obs"]) == Ok(1)
    ensures msg.Obj? && "obs" in msg.fields && msg.fields["obs"].Arr? ==>
      var rows := msg.fields["obs"].items;
      && (|rows| == 0 ==> r == Err(IndexError))
      && (|rows| >= 2 ==> r == Err(AssertionError))
      && (|rows| == 1 ==> r == StationFromRow(rows[0]))
  {
    var row :- SingleRow(msg);
    StationFromRow(row)
  }

  /** The rows the station decoder accepts: the numeric positions hold
      numbers and position 13 is the code 0, 1 or 2 itself (3 is refused). */
  predicate StationAccepts(row: Json)
  {
    NumbersAt(row, StationIndices) && 13 < |row.items| && IsPrecipitationCode(row.items[13])
  }

  /** A station row decodes exactly when the decoder accepts it. */
  lemma StationAcceptance(row: Json)
    ensures StationFromRow(row).Ok? <==> StationAccepts(row)
  {
    if NumbersAt(row, StationIndices) {
      assert NumberAt(row, 0) && NumberAt(row, 1) && NumberAt(row, 2) && NumberAt(row, 3);
      assert NumberAt(row, 4) && NumberAt(row, 6) && NumberAt(row, 7) && NumberAt(row, 8);
      assert NumberAt(row, 9) && NumberAt(row, 10) && NumberAt(row, 11) && NumberAt(row, 12);
      assert NumberAt(row, 14) && NumberAt(row, 15);
    }
  }

  /** An accepted station row decodes position by position: the lightning
      count comes from 15 and the average distance from 14; 5, 16 and 17 are
      not read. */
  lemma StationDecoding(row: Json)
    requires StationAccepts(row)
    ensures StationFromRow(row) == Ok(StationObservation(
      NumberIn(row, 0), NumberIn(row, 1), NumberIn(row, 2), NumberIn(row, 3),
      NumberIn(row, 4), NumberIn(row, 6), NumberIn(row, 7), NumberIn(row, 8),
      NumberIn(row, 9), NumberIn(row, 10), NumberIn(row, 11), NumberIn(row, 12),
      PrecipitationNames[NumericValue(row.items[13]).value.Floor], Trunc(NumberIn(row, 15)), NumberIn(row, 14)))
  {
    assert NumberAt(row, 0) && NumberAt(row, 1) && NumberAt(row, 2) && NumberAt(row, 3);
    assert NumberAt(row, 4) && NumberAt(row, 6) && NumberAt(row, 7) && NumberAt(row, 8);
    assert NumberAt(row, 9) && NumberAt(row, 10) && NumberAt(row, 11) && NumberAt(row, 12);
    assert NumberAt(row, 14) && NumberAt(row, 15);
  }
}
