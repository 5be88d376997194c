/** The rows a Tempest station sends for each sample kind, built from the
    sample, with arbitrary values at the positions the decoders skip. They
    are the partners of the decoders: decoding a row built from a sample
    gives the sample back, whatever the skipped positions hold. */
module WireRows {
  import opened PyJson
  import opened Translators
  import opened Observations

  /** `ob` of a rapid_wind message: [epoch, speed, direction]. */
  function RapidWindRow(w: RapidWind): (row: Json)
    ensures row.Arr? && |row.items| == 3
  {
    Arr([Num(w.timestamp), Num(w.windSpeed), Num(w.windDirection)])
  }

  /** An obs_air row; `battery` and `reportInterval` sit at 6 and 7. */
  function AirRow(a: AirObservation, battery: Json, reportInterval: Json): (row: Json)
    ensures row.Arr? && |row.items| == 8
  {
    Arr([Num(a.timestamp), Num(a.pressure), Num(a.airTemperature), Num(a.relativeHumidity),
         Num(a.lightningStrikesCount as real), Num(a.lightningStrikeAverageDistance),
         battery, reportInterval])
  }

  /** A sky sample the wire can carry: its precipitation type is one of the names. */
  predicate SkyEncodable(s: SkyObservation)
  {
    s.precipitationType in PrecipitationNames
  }

  /** An obs_sky row; battery, report interval and wind sample interval sit
      at 8, 9 and 13, and a missing daily rain is sent as None. */
  function SkyRow(s: SkyObservation, battery: Json, reportInterval: Json, sampleInterval: Json): (row: Json)
    requires SkyEncodable(s)
    ensures row.Arr? && |row.items| == 14
  {
    Arr([Num(s.timestamp), Num(s.illuminance), Num(s.uvIndex), Num(s.rainAccumulated),
         Num(s.windLull), Num(s.windAvg), Num(s.windGust), Num(s.windDirection),
         battery, reportInterval, Num(s.solarRadiation),
         (match s.rainAccumulatedDay case None => Null case Some(x) => Num(x)),
         Num(PrecipitationCode(s.precipitationType) as real), sampleInterval])
  }

  predicate StationEncodable(s: StationObservation)
  {
    s.precipitationType in PrecipitationNames
  }

  /** An obs_st row; wind sample interval, battery and report interval sit
      at 5, 16 and 17, the average distance at 14 and the count at 15. */
  function StationRow(s: StationObservation, sampleInterval: Json, battery: Json, reportInterval: Json): (row: Json)
    requires StationEncodable(s)
    ensures row.Arr? && |row.items| == 18
  {
    Arr([Num(s.timestamp), Num(s.windLull), Num(s.windAvg), Num(s.windGust),
         Num(s.windDirection), sampleInterval, Num(s.pressure), Num(s.airTemperature),
         Num(s.relativeHumidity), Num(s.illuminance), Num(s.uvIndex), Num(s.solarRadiation),
         Num(s.rainAccumulated), Num(PrecipitationCode(s.precipitationType) as real),
         Num(s.lightningStrikeAverageDistance), Num(s.lightningStrikesCount as real),
         battery, reportInterval])
  }

  /** A message object holding one row under `obs` (or the flat `ob`). */
  function BatchMessage(messageType: string, row: Json): Json
  {
    Obj(map["type" := Str(messageType), "obs" := Arr([row])])
  }

  lemma RapidWindRoundTrip(w: RapidWind, messageType: string)
    ensures RapidWindFromMsg(Obj(map["type" := Str(messageType), "ob" := RapidWindRow(w)])) == Ok(w)
  {
  }

  lemma AirRoundTrip(a: AirObservation, battery: Json, reportInterval: Json)
    ensures AirFromMsg(BatchMessage("obs_air", AirRow(a, battery, reportInterval))) == Ok(a)
  {
    TruncWhole(a.lightningStrikesCount);
  }

  lemma SkyRoundTrip(s: SkyObservation, battery: Json, reportInterval: Json, sampleInterval: Json)
    requires SkyEncodable(s)
    ensures SkyFromMsg(BatchMessage("obs_sky", SkyRow(s, battery, reportInterval, sampleInterval))) == Ok(s)
  {
    var row := SkyRow(s, battery, reportInterval, sampleInterval);
    SkyRowRoundTrip(s, battery, reportInterval, sampleInterval);
    assert BatchMessage("obs_sky", row).fields["obs"].items == [row];
  }

  /** The row alone decodes to the sample. */
  lemma SkyRowRoundTrip(s: SkyObservation, battery: Json, reportInterval: Json, sampleInterval: Json)
    requires SkyEncodable(s)
    ensures SkyFromRow(SkyRow(s, battery, reportInterval, sampleInterval)) == Ok(s)
  {
    var row := SkyRow(s, battery, reportInterval, sampleInterval);
    var code := PrecipitationCode(s.precipitationType);
    PrecipitationRoundTrip(s.precipitationType);
    TruncWhole(code);
    assert IntAt(row, 12) == Ok(code);
  }

  lemma StationRoundTrip(s: StationObservation, sampleInterval: Json, battery: Json, reportInterval: Json)
    requires StationEncodable(s)
    ensures StationFromMsg(BatchMessage("obs_st", StationRow(s, sampleInterval, battery, reportInterval))) == Ok(s)
  {
    var row := StationRow(s, sampleInterval, battery, reportInterval);
    StationRowRoundTrip(s, sampleInterval, battery, reportInterval);
    assert BatchMessage("obs_st", row).fields["obs"].items == [row];
  }

  /** The row alone decodes to the sample. */
  lemma StationRowRoundTrip(s: StationObservation, sampleInterval: Json, battery: Json, reportInterval: Json)
    requires StationEncodable(s)
    ensures StationFromRow(StationRow(s, sampleInterval, battery, reportInterval)) == Ok(s)
  {
    var row := StationRow(s, sampleInterval, battery, reportInterval);
    PrecipitationRoundTrip(s.precipitationType);
    TruncWhole(s.lightningStrikesCount);
    assert Index(row, 13) == Ok(Num(PrecipitationCode(s.precipitationType) as real));
    assert IntAt(row, 15) == Ok(s.lightningStrikesCount);
  }

  // ---------------------------------------------------------------------------
  // The protocol's published sample messages

  /** The sample messages of the UDP protocol documentation, as `json.loads` reads them. */
  const PublishedRapidWind: Json := Obj(map[
    "serial_number" := Str("SK-00008453"),
    "type" := Str("rapid_wind"),
    "hub_sn" := Str("HB-00000001"),
    "ob" := Arr([Num(1493322445.0), Num(2.3), Num(128.0)])])

  const PublishedAirRow: Json := Arr([Num(1493164835.0), Num(835.0), Num(10.0), Num(45.0), Num(1.0),
                                      Num(7.2), Num(3.46), Num(1.0)])

  const PublishedAir: Json := Obj(map[
    "serial_number" := Str("AR-00004049"),
    "type" := Str("obs_air"),
    "hub_sn" := Str("HB-00000001"),
    "obs" := Arr([PublishedAirRow]),
    "firmware_revision" := Num(17.0)])

  const PublishedSkyRow: Json := Arr([Num(1493321340.0), Num(9000.0), Num(10.0), Num(0.0), Num(2.6),
                                      Num(4.6), Num(7.4), Num(187.0), Num(3.12), Num(1.0), Num(130.0),
                                      Null, Num(0.0), Num(3.0)])

  const PublishedSky: Json := Obj(map[
    "serial_number" := Str("SK-00008453"),
    "type" := Str("obs_sky"),
    "hub_sn" := Str("HB-00000001"),
    "obs" := Arr([PublishedSkyRow]),
    "firmware_revision" := Num(29.0)])

  const PublishedStationRow: Json := Arr([Num(1588948614.0), Num(0.18), Num(0.22), Num(0.27), Num(144.0),
                                          Num(6.0), Num(1017.57), Num(22.37), Num(50.26), Num(328.0),
                                          Num(0.03), Num(3.0), Num(0.0), Num(0.0), Num(0.0), Num(0.0),
                                          Num(2.41), Num(1.0)])

  const PublishedStation: Json := Obj(map[
    "serial_number" := Str("ST-00000512"),
    "type" := Str("obs_st"),
    "hub_sn" := Str("HB-00013030"),
    "obs" := Arr([PublishedStationRow]),
    "firmware_revision" := Num(129.0)])

  lemma RapidWindFixture()
    ensures RapidWindFromMsg(PublishedRapidWind) == Ok(RapidWind(2.3, 128.0, 1493322445.0))
  {
  }

  lemma AirFixture()
    ensures AirFromMsg(PublishedAir) == Ok(AirObservation(835.0, 10.0, 45.0, 1, 7.2, 1493164835.0))
  {
    assert PublishedAir.fields["obs"].items == [PublishedAirRow];
  }

  lemma SkyFixture()
    ensures SkyFromMsg(PublishedSky)
         == Ok(SkyObservation(1493321340.0, 9000.0, 10.0, 0.0, 2.6, 4.6, 7.4, 187.0, 130.0,
                              None, "none"))
  {
    assert PublishedSky.fields["obs"].items == [PublishedSkyRow];
  }

  lemma StationFixture()
    ensures StationFromMsg(PublishedStation)
         == Ok(StationObservation(1588948614.0, 0.18, 0.22, 0.27, 144.0, 1017.57, 22.37, 50.26,
                                  328.0, 0.03, 3.0, 0.0, "none", 0, 0.0))
  {
    assert PublishedStation.fields["obs"].items == [PublishedStationRow];
    TruncWhole(0);
    assert Index(PublishedStationRow, 13) == Ok(Num(0.0));
    assert IntAt(PublishedStationRow, 15) == Ok(0);
  }

  // ---------------------------------------------------------------------------
  // The precipitation code as the two decoders read it

  /** Code 3 ("rain + hail") makes both the sky and the station decoders fail. */
  lemma PrecipitationCodeThreeFailsBoth(row: Json)
    requires row.Arr? && |row.items| >= 14
    requires row.items[12] == Num(3.0) && row.items[13] == Num(3.0)
    ensures SkyFromRow(row).Err? && StationFromRow(row).Err?
  {
    SkyAcceptance(row);
    StationAcceptance(row);
  }

  /** A fractional code is truncated by the sky decoder (2.5 reads as hail)
      and refused by the station decoder, which compares it unconverted. */
  lemma FractionalPrecipitationCode(row: Json)
    requires NumbersAt(row, SkyIndices) && DailyRainReadable(row)
    requires NumbersAt(row, StationIndices) && |row.items| > 13
    requires row.items[12] == Num(2.5) && row.items[13] == Num(2.5)
    ensures SkyFromRow(row).Ok? && SkyFromRow(row).value.precipitationType == "hail"
    ensures StationFromRow(row) == Err(ValueError)
  {
    SkyAcceptance(row);
    SkyDecoding(row);
    StationAcceptance(row);
  }
}
