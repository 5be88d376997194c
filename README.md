# Tempest UDP message decoding, modelled in Dafny

This project models the message-decoding layer of the `teacup` WeatherFlow
Tempest collector (`teacup/tempest/messages.py`), which follows the Tempest
UDP API v143. A station broadcasts JSON datagrams. Each one carries a `type`
tag and a positional numeric array. The decoding layer turns one such message
into a sample record and merges samples into a combined station state.

The model has six modules:

- `PyJson` (`pyjson.dfy`): the values `json.loads` produces, and the Python
  operations the decoders apply to them. These are `msg[key]`, `seq[i]`,
  `len`, `float()`, `int()` (which truncates toward zero) and
  `datetime.fromtimestamp()`. Each failing operation yields the Python
  exception class it raises: KeyError, IndexError, TypeError, ValueError or
  AssertionError. Booleans count as the numbers 0 and 1, as they do in Python.
- `Translators` (`translators.dfy`): `_precipitation_type_name` and
  `_wind_direction`, plus the corrected compass octant described under
  Findings.
- `Observations` (`observations.dfy`): the four records `RapidWind`,
  `AirObservation`, `SkyObservation` and `StationObservation`, and their
  `from_msg` decoders. Each decoder converts the fields in the source's
  order, so the first failing field decides which exception is raised.
- `WireRows` (`wire_rows.dfy`): the rows a station sends for a given sample.
  They partner the decoders in the round-trip lemmas. This module also holds
  the protocol's published sample messages.
- `Router` (`router.dfy`): `EVENT_TO_CONTAINER` and `get_message_object`.
- `State` (`state.dfy`): `TempestState` as a map from its 17 fields to
  values, with `empty_state`, `asdict` and `update`. `UpdateAll` applies
  `update` to a stream of samples in turn, which is how the state is meant to
  accumulate messages.

The source holds its values in Python floats. The model uses `real` for
them, because the decoders do no arithmetic. Timestamps are kept as the
epoch-seconds number.

The model follows the code in two places where the precipitation code is
easy to misread:

- The docstring of `StationObservation` (messages.py:180) lists precipitation
  code 3, "rain + hail". The station decoder passes the raw value to the same
  0/1/2-only translator, so code 3 raises ValueError for station rows just as
  it does for sky rows.
- The sky decoder applies `int()` to the code before translating it
  (messages.py:148), so 2.5 reads as "hail". The station decoder does not
  apply `int()` (messages.py:218), so 2.5 raises ValueError.

An `obs` list with no rows fails at `obs[0]` with IndexError, before the
`len == 1` assertion is reached. Two or more rows fail that assertion.

## Model

| member | source | states |
|---|---|---|
| PyJson.NumericValue | teacup/tempest/messages.py:88 | the values Python converts to a number are exactly the JSON numbers and booleans; a number keeps its value, True is 1 and False is 0 |
| PyJson.Subscript | teacup/tempest/messages.py:261 | `msg[key]` succeeds exactly on an object holding the key and gives its value; a missing key raises KeyError, a non-object TypeError |
| PyJson.Index | teacup/tempest/messages.py:85 | `seq[i]` succeeds exactly within a list or string and gives that element; past the end raises IndexError, an object KeyError, null, booleans and numbers TypeError |
| PyJson.Length | teacup/tempest/messages.py:86 | `len` succeeds exactly on lists, strings and objects and gives their element count; anything else raises TypeError |
| PyJson.Trunc | teacup/tempest/messages.py:91 | `int()` of a float truncates toward zero: the result is within 1 of the input, below it for positives and above it for negatives |
| PyJson.TruncWhole | teacup/tempest/messages.py:91 | `int()` leaves a whole number unchanged |
| PyJson.Float | teacup/tempest/messages.py:88 | `float()` succeeds exactly on numbers and booleans and gives their value; a string raises ValueError, anything else TypeError |
| PyJson.Int | teacup/tempest/messages.py:91 | `int()` succeeds exactly where `float()` does, and the result is the value truncated toward zero; failures raise the same exceptions as `float()` |
| PyJson.Timestamp | teacup/tempest/messages.py:87 | `fromtimestamp` accepts exactly numbers and booleans, keeps their epoch value, and raises TypeError on anything else |
| Translators.PrecipitationTypeName | teacup/tempest/messages.py:13-20 | succeeds exactly for codes equal to 0, 1 or 2, giving the name at that position of ["none","rain","hail"]; every other value raises ValueError |
| Translators.PrecipitationCode | teacup/tempest/messages.py:13-20 | inverse of the translator: the code of a precipitation name is the position of that name |
| Translators.PrecipitationRoundTrip | teacup/tempest/messages.py:13-20 | translating the code of a name gives the name back |
| Translators.PrecipitationCodeRoundTrip | teacup/tempest/messages.py:13-20 | the code of the translated name is the numeric value of the accepted code |
| Translators.PrecipitationCodeThreeRejected | teacup/tempest/messages.py:13-20 | code 3 ("rain + hail") raises ValueError |
| Translators.WindDirection | teacup/tempest/messages.py:23-40 | never fails; the fallback "ER" is returned exactly for 337.5; every direction below 0 or at or above 360 is North |
| Translators.WindDirectionMatchesOctants | teacup/tempest/messages.py:24-39 | on [0, 360) except 337.5, the result is the octant of an independent definition: 45-degree sectors closed below, North wrapping around 0 |
| Translators.WindDirectionFallbackOnlyAtBoundary | teacup/tempest/messages.py:38-40 | the fallback ("ERROR: 337.5", "ER") is reached by 337.5 and by no other real |
| Translators.CompassOctant | teacup/tempest/messages.py:24-39 | corrected translator: always one of the eight octants, the reference octant on [0, 360), North outside it |
| Translators.CompassOctantAgreesWithWindDirection | teacup/tempest/messages.py:24-40 | the corrected and the written translator agree on every real except 337.5 |
| Observations.FloatAt | teacup/tempest/messages.py:88 | `float(row[i])` succeeds exactly when position i of a list holds a number, and gives that number |
| Observations.IntAt | teacup/tempest/messages.py:91 | `int(row[i])` succeeds exactly when position i of a list holds a number, and gives it truncated toward zero |
| Observations.TimestampAt | teacup/tempest/messages.py:87 | `fromtimestamp(row[i])` succeeds exactly when position i of a list holds a number, and keeps it as the epoch |
| Observations.RapidWindFromMsg | teacup/tempest/messages.py:54-61 | success implies the message is an object with an `ob` key |
| Observations.RapidWindDecoding | teacup/tempest/messages.py:55-61 | decoding succeeds exactly when `ob[0..2]` are numbers; the speed is `ob[1]`, the direction `ob[2]` and the timestamp `ob[0]`; there is no other length check |
| Observations.SingleRow | teacup/tempest/messages.py:85-86 | for a list of rows: an empty list raises IndexError, two or more rows raise AssertionError, one row is returned |
| Observations.AirFromRow | teacup/tempest/messages.py:87-99 | success needs a list of at least 6 entries |
| Observations.AirFromMsg | teacup/tempest/messages.py:83-99 | 0 rows raise IndexError, 2 or more raise AssertionError, exactly one row is decoded; success implies `len(obs) == 1` |
| Observations.AirDecoding | teacup/tempest/messages.py:87-99 | an air row decodes exactly when indices 0-5 are numbers; pressure, temperature and humidity come from 1-3, the count is the truncated number at 4, the distance is at 5, the timestamp at 0 |
| Observations.SkyFromRow | teacup/tempest/messages.py:135-160 | success needs a list of at least 13 entries |
| Observations.SkyFromMsg | teacup/tempest/messages.py:131-160 | the same single-row behaviour as the air decoder, with the sky row decoder |
| Observations.SkyAcceptance | teacup/tempest/messages.py:135-148 | a sky row decodes exactly when indices 0-7, 10 and 12 are numbers, 11 is a number or None, and `int()` of the code at 12 is 0, 1 or 2; indices 8, 9 and 13 play no part |
| Observations.SkyDecoding | teacup/tempest/messages.py:135-160 | an accepted sky row gives the numbers at 0-7 and 10 in field order, None at 11 as a missing daily rain, and the name of the truncated code at 12 |
| Observations.StationFromRow | teacup/tempest/messages.py:206-220 | success needs a list of at least 16 entries |
| Observations.StationFromMsg | teacup/tempest/messages.py:202-236 | the same single-row behaviour as the air decoder, with the station row decoder |
| Observations.StationAcceptance | teacup/tempest/messages.py:206-220 | a station row decodes exactly when indices 0-4, 6-12, 14 and 15 are numbers and the raw code at 13 equals 0, 1 or 2; indices 5, 16 and 17 play no part |
| Observations.StationDecoding | teacup/tempest/messages.py:206-236 | an accepted station row gives the numbers at 0-4 and 6-12 in field order, the name of the code at 13, the count truncated from 15 and the distance from 14 |
| WireRows.RapidWindRoundTrip | teacup/tempest/messages.py:43-61 | decoding the `ob` array `[epoch, speed, direction]` built from a sample gives the sample back |
| WireRows.RapidWindRow | teacup/tempest/messages.py:46-48 | the `ob` array of a rapid_wind message has three positions |
| WireRows.AirRow | teacup/tempest/messages.py:67-74 | an obs_air row has eight positions |
| WireRows.AirRoundTrip | teacup/tempest/messages.py:64-99 | decoding a one-row obs_air message built from a sample gives it back, whatever battery and report interval hold |
| WireRows.SkyRoundTrip | teacup/tempest/messages.py:101-160 | decoding a one-row obs_sky message built from a sample gives it back, whatever indices 8, 9 and 13 hold, with a missing daily rain sent as None |
| WireRows.SkyRow | teacup/tempest/messages.py:104-117 | an obs_sky row has fourteen positions |
| WireRows.SkyRowRoundTrip | teacup/tempest/messages.py:135-148 | decoding a sky row built from a sample gives the sample back |
| WireRows.StationRow | teacup/tempest/messages.py:167-184 | an obs_st row has eighteen positions |
| WireRows.StationRowRoundTrip | teacup/tempest/messages.py:206-220 | decoding a station row built from a sample gives the sample back |
| WireRows.StationRoundTrip | teacup/tempest/messages.py:164-236 | decoding a one-row obs_st message built from a sample gives it back, whatever indices 5, 16 and 17 hold |
| WireRows.RapidWindFixture | tests/test_tempest_fields.py:88-92 | the published rapid_wind message (serial number, hub and `ob`) decodes to speed 2.3, direction 128 and epoch 1493322445 |
| WireRows.AirFixture | tests/test_tempest_fields.py:79-86 | the published obs_air message, with its serial number, hub, firmware revision and one-row `obs`, decodes to pressure 835.0, temperature 10, humidity 45, one strike at 7.2 km and epoch 1493164835 |
| WireRows.SkyFixture | tests/test_tempest_fields.py:94-106 | the published obs_sky message decodes to the listed values, with the daily rain None and precipitation "none" |
| WireRows.StationFixture | tests/test_tempest_fields.py:108-124 | the published obs_st message decodes to the listed values, with precipitation "none" and no strikes at distance 0 |
| WireRows.PrecipitationCodeThreeFailsBoth | teacup/tempest/messages.py:218 | code 3 makes the station decoder fail, just as it makes the sky decoder fail |
| WireRows.FractionalPrecipitationCode | teacup/tempest/messages.py:148 | code 2.5 is truncated to "hail" by the sky decoder and raises ValueError in the station decoder |
| Router.TagTableInverse | teacup/tempest/messages.py:253-258 | the type table maps each of the four tags to one kind and each kind back to its tag |
| Router.Decode | teacup/tempest/messages.py:262-264 | a decoded sample is of the kind that was asked for |
| Router.GetMessageObject | teacup/tempest/messages.py:260-267 | a non-object raises TypeError, a missing `type` raises KeyError; the result is None exactly for a hashable type outside the table; a returned sample's kind matches the message's tag |
| Router.GetMessageObjectDispatches | teacup/tempest/messages.py:261-264 | a message tagged with a known type gives exactly what that type's decoder gives, sample or exception |
| Router.UnhashableTypeRaises | teacup/tempest/messages.py:262 | a `type` that is a list or an object cannot be looked up in the table and raises TypeError |
| Router.DeviceStatusIgnored | teacup/tempest/messages.py:265-267 | a `device_status` message yields None and raises nothing |
| Router.RoutedRoundTrip | teacup/tempest/messages.py:253-264 | a message built from any sample of the four kinds is routed and decoded to that sample |
| State.FieldsOf | teacup/tempest/messages.py:50-200 | every record declares a timestamp; only RapidWind declares the wind speed and only SkyObservation the daily rain |
| State.DeclaredListsFields | teacup/tempest/messages.py:50-200 | each record's fields are exactly those its class body declares in order |
| State.DeclaredDistinct | teacup/tempest/messages.py:50-200 | no record declares a field twice |
| State.RecordSizes | teacup/tempest/messages.py:50-200 | RapidWind, AirObservation, SkyObservation and StationObservation have 3, 6, 11 and 15 fields |
| State.FieldsInSchema | teacup/tempest/messages.py:239-241 | every record's fields are fields of the state |
| State.SchemaUnion | tests/test_tempest_fields.py:61-77 | the state's fields are exactly the union of the four records' fields |
| State.FieldOrderListsSchema | teacup/tempest/messages.py:239-241 | the dataclass order lists the 17 fields of the state, each once |
| State.FieldValue | teacup/tempest/messages.py:119-129 | the timestamp is a time, the precipitation type a string and the strike count an integer; None appears only as a sky sample's missing daily rain |
| State.FieldValueNone | teacup/tempest/messages.py:119-160 | a sample field holds None only for the daily rain of a sky sample, the one Optional field |
| State.AsDict | teacup/tempest/messages.py:244-245 | `asdict` of a sample has exactly that record's fields, and only the daily rain of a sky sample can be None |
| State.FromPositional | teacup/tempest/messages.py:250 | positional construction gives the i-th declared field the i-th value |
| State.EmptyState | teacup/tempest/messages.py:248-251 | every field of the empty state is None |
| State.EmptyStateIsPositionalNones | teacup/tempest/messages.py:250 | the empty state is the state built from 17 positional Nones |
| State.Update | teacup/tempest/messages.py:243-246 | the fields the sample declares take the sample's values, every other field keeps the old value; the result has the same 17 fields |
| State.UpdateLastWriterWins | teacup/tempest/messages.py:243-246 | after two updates each field holds the later sample's value, else the earlier's, else the state's |
| State.UpdateAbsorbed | teacup/tempest/messages.py:243-246 | an update is wiped out by a later one whose sample declares all its fields |
| State.UpdateIdempotent | teacup/tempest/messages.py:243-246 | applying the same sample twice equals applying it once |
| State.DistinctElementsCount | teacup/tempest/messages.py:250 | a field order without repeats lists as many distinct fields as it has positions |
| State.SchemaSize | teacup/tempest/messages.py:250 | the state has exactly 17 fields, the number of Nones `empty_state` passes |
| State.InSchema | teacup/tempest/messages.py:239-241 | every field of the four records is a field of the state |
| State.UpdateAll | teacup/tempest/messages.py:243-246 | after `update` is applied to each sample of a stream in turn, each field holds the value of the last sample that carries it; a field that no sample carries keeps its starting value |
| State.UpdateStep | teacup/tempest/messages.py:243-246 | one more `update` turns the merge of a stream into the merge of the stream extended by that sample |
| State.UpdateStepAt | teacup/tempest/messages.py:243-246 | the same, field by field |
| State.CarriedByLast | teacup/tempest/messages.py:244-245 | a field the new sample carries takes the sample's value, and that sample is the last one to carry it |
| State.NotCarriedByLast | teacup/tempest/messages.py:244-246 | a field the new sample does not carry keeps the value the earlier samples left |
| State.UpdateAllAppend | teacup/tempest/messages.py:243-246 | merging a stream equals merging its first part, then merging the rest into the result |
| State.StationSupersedesAir | teacup/tempest/messages.py:243-246 | a station sample overwrites everything an earlier air sample set |
| State.StationDeclares | teacup/tempest/messages.py:186-200 | a station sample declares every state field except wind speed and daily rain |
| State.StationIntoEmptyStateAt | teacup/tempest/messages.py:243-251 | from the empty state, a station sample leaves a given field None exactly when it is wind speed or daily rain |
| State.StationIntoEmptyState | teacup/tempest/messages.py:243-251 | from the empty state, a station sample leaves exactly wind speed and daily rain None |

## Left out

- The UDP listener on port 50222, the UTF-8 and `json.loads` step, printing the decoded JSON and logging exceptions (`teacup/__main__.py`). They are I/O around the decoding layer.
- `teacup/tempest_state.py` is an older class that nothing uses. Its `update_from_rapid_wind` is empty, and `to_ws_json` is floating-point formatting and `json.dumps`.
- The `log.debug` call for unhandled types (messages.py:266).
- PyJson.Float: a numeric string such as "1.5" raises ValueError in the model, but Python's `float()` would parse it. Python's string parsing rules are not modelled.
- PyJson.Int: like Float, it does not parse numeric strings. `int()` of an infinite float raises OverflowError in Python; that case is not modelled because values are reals.
- PyJson.Timestamp: `fromtimestamp` also fails on epochs outside the platform's range, and it converts to local time. The model keeps the raw epoch and does not model that range.
- IEEE floating point: values are reals, so NaN, infinities, rounding and the float precision of large JSON integers are not modelled. In particular `float()` of a JSON integer above about 1.8e308 raises OverflowError in Python, while the model returns its value.
- Exception messages: only the exception class is modelled, not its text.
- Running Python with `-O` would remove the `len(obs) == 1` assertion. The model keeps the assertion.
- `update` builds a fresh `TempestState` and never changes its receiver. In the model the state is a value, so there is nothing in place to model.
- Unlike `TempestState(**d)`, the model's states cannot receive unknown keywords. `update` only passes the state's own fields, so this case never arises.

## Findings

| source | as written | input that shows it | evidently intended | confidence | as-written member | corrected member |
|---|---|---|---|---|---|---|
| teacup/tempest/messages.py:24-40 | North needs `direction > 337.5` and Northwest needs `direction < 337.5`, so 337.5 matches no octant and returns ("ERROR: 337.5", "ER") | wind direction 337.5 | the sectors are closed below and open above, so 337.5 is the lower bound of North and should return ("North", "N") | medium, not executed | Translators.WindDirectionFallbackOnlyAtBoundary | Translators.CompassOctant |

No decoding path calls the octant translator, so the corrected version affects no other member of the model.
