/** `TempestState`: the combined station state, whose fields are the union of
    the four sample records' fields, and its merge `update`, which overwrites
    the fields a sample carries and keeps the others. The state is a value:
    `update` returns a new state and leaves its receiver as it was. */
module State {
  import opened PyJson
  import opened Observations

  /** The field names of the four sample records. */
  datatype Field =
    | TimestampField
    | WindSpeed
    | WindLull
    | WindAvg
    | WindGust
    | WindDirectionField
    | Pressure
    | AirTemperature
    | RelativeHumidity
    | Illuminance
    | UvIndex
    | SolarRadiation
    | RainAccumulated
    | RainAccumulatedDay
    | PrecipitationType
    | LightningStrikesCount
    | LightningStrikeAverageDistance

  /** A field's value: None, or what a sample stores there. */
  datatype Cell =
    | NoneValue
    | RealValue(x: real)
    | IntValue(n: int)
    | TextValue(s: string)
    | TimeValue(epoch: real)

  /** The fields each sample record declares, in declaration order. */
  function Declared(k: Kind): seq<Field>
  {
    match k
    case RapidWindKind => [WindSpeed, WindDirectionField, TimestampField]
    case AirKind => [Pressure, AirTemperature, RelativeHumidity, LightningStrikesCount,
                     LightningStrikeAverageDistance, TimestampField]
    case SkyKind => [TimestampField, Illuminance, UvIndex, RainAccumulated, WindLull, WindAvg,
                     WindGust, WindDirectionField, SolarRadiation, RainAccumulatedDay,
                     PrecipitationType]
    case StationKind => [TimestampField, WindLull, WindAvg, WindGust, WindDirectionField, Pressure,
                         AirTemperature, RelativeHumidity, Illuminance, UvIndex,
                         SolarRadiation, RainAccumulated, PrecipitationType,
                         LightningStrikesCount, LightningStrikeAverageDistance]
  }

  /** The set of fields a sample record declares. */
  function FieldsOf(k: Kind): (r: set<Field>)
    ensures TimestampField in r
    ensures (WindSpeed in r <==> k == RapidWindKind) && (RainAccumulatedDay in r <==> k == SkyKind)
  {
    match k
    case RapidWindKind => {WindSpeed, WindDirectionField, TimestampField}
    case AirKind => {Pressure, AirTemperature, RelativeHumidity, LightningStrikesCount,
                     LightningStrikeAverageDistance, TimestampField}
    case SkyKind => {TimestampField, Illuminance, UvIndex, RainAccumulated, WindLull, WindAvg,
                     WindGust, WindDirectionField, SolarRadiation, RainAccumulatedDay,
                     PrecipitationType}
    case StationKind => {TimestampField, WindLull, WindAvg, WindGust, WindDirectionField, Pressure,
                         AirTemperature, RelativeHumidity, Illuminance, UvIndex,
                         SolarRadiation, RainAccumulated, PrecipitationType,
                         LightningStrikesCount, LightningStrikeAverageDistance}
  }

  /** The records declare 3, 6, 11 and 15 fields, none twice. */
  lemma RecordSizes(k: Kind)
    ensures |FieldsOf(k)| == match k
      case RapidWindKind => 3
      case AirKind => 6
      case SkyKind => 11
      case StationKind => 15
  {
    DeclaredListsFields(k);
    DeclaredDistinct(k);
    DistinctElementsCount(Declared(k));
  }

  /** Each record's declaration lists exactly its fields. */
  lemma DeclaredListsFields(k: Kind)
    ensures FieldsOf(k) == set f | f in Declared(k)
  {
  }

  /** No record declares a field twice. */
  lemma DeclaredDistinct(k: Kind)
    ensures forall i, j :: 0 <= i < j < |Declared(k)| ==> Declared(k)[i] != Declared(k)[j]
  {
  }

  /** Every record's fields are fields of the state. */
  lemma FieldsInSchema(k: Kind)
    ensures FieldsOf(k) <= AllFields
  {
  }

  /** The state's schema is exactly the union of the four records' schemas. */
  lemma SchemaUnion()
    ensures AllFields == FieldsOf(RapidWindKind) + FieldsOf(AirKind) + FieldsOf(SkyKind) + FieldsOf(StationKind)
  {
  }

  /** The fields of `TempestState` in the order the dataclass declares them:
      its bases are walked from the last, StationObservation, to the first,
      and a name already seen keeps its place. */
  const FieldOrder: seq<Field> := [
    TimestampField, WindLull, WindAvg, WindGust, WindDirectionField, Pressure, AirTemperature,
    RelativeHumidity, Illuminance, UvIndex, SolarRadiation, RainAccumulated,
    PrecipitationType, LightningStrikesCount, LightningStrikeAverageDistance,
    RainAccumulatedDay, WindSpeed
  ]

  /** The fields of `TempestState`. */
  const AllFields: set<Field> := set f | f in FieldOrder

  /** The declared order lists every field of the state once: 17 positions. */
  lemma FieldOrderListsSchema()
    ensures |FieldOrder| == 17
    ensures forall i, j :: 0 <= i < j < |FieldOrder| ==> FieldOrder[i] != FieldOrder[j]
    ensures forall f :: f in AllFields <==> f in FieldOrder
  {
  }

  /** A sequence without repeats has as many distinct elements as positions. */
  lemma {:induction false} DistinctElementsCount<X>(s: seq<X>)
    requires forall i, j :: 0 <= i < j < |s| ==> s[i] != s[j]
    ensures |set x | x in s| == |s|
  {
    if s != [] {
      var rest := s[1..];
      DistinctElementsCount(rest);
      assert (set x | x in s) == {s[0]} + (set x | x in rest);
      assert s[0] !in (set x | x in rest);
    }
  }

  /** The state has 17 fields, the count `empty_state` passes as positional Nones. */
  lemma SchemaSize()
    ensures |AllFields| == 17
  {
    FieldOrderListsSchema();
    DistinctElementsCount(FieldOrder);
  }

  /** Every field is a field of the state. */
  lemma InSchema(f: Field)
    ensures f in AllFields
  {
  }

  /** The value a sample stores in one of its declared fields. */
  function FieldValue(o: Observation, f: Field): (c: Cell)
    ensures f == TimestampField ==> c.TimeValue?
    ensures f == PrecipitationType && (o.SkyObs? || o.StationObs?) ==> c.TextValue?
    ensures f == LightningStrikesCount && (o.AirObs? || o.StationObs?) ==> c.IntValue?
    ensures c.NoneValue? ==> o.SkyObs? && f == RainAccumulatedDay && o.sky.rainAccumulatedDay.None?
  {
    match o
    case RapidWindObs(w) => (
      match f
      case WindSpeed => RealValue(w.windSpeed)
      case WindDirectionField => RealValue(w.windDirection)
      case _ => TimeValue(w.timestamp))
    case AirObs(a) => (
      match f
      case Pressure => RealValue(a.pressure)
      case AirTemperature => RealValue(a.airTemperature)
      case RelativeHumidity => RealValue(a.relativeHumidity)
      case LightningStrikesCount => IntValue(a.lightningStrikesCount)
      case LightningStrikeAverageDistance => RealValue(a.lightningStrikeAverageDistance)
      case _ => TimeValue(a.timestamp))
    case SkyObs(s) => (
      match f
      case Illuminance => RealValue(s.illuminance)
      case UvIndex => RealValue(s.uvIndex)
      case RainAccumulated => RealValue(s.rainAccumulated)
      case WindLull => RealValue(s.windLull)
      case WindAvg => RealValue(s.windAvg)
      case WindGust => RealValue(s.windGust)
      case WindDirectionField => RealValue(s.windDirection)
      case SolarRadiation => RealValue(s.solarRadiation)
      case RainAccumulatedDay => (match s.rainAccumulatedDay case None => NoneValue case Some(x) => RealValue(x))
      case PrecipitationType => TextValue(s.precipitationType)
      case _ => TimeValue(s.timestamp))
    case StationObs(s) => (
      match f
      case WindLull => RealValue(s.windLull)
      case WindAvg => RealValue(s.windAvg)
      case WindGust => RealValue(s.windGust)
      case WindDirectionField => RealValue(s.windDirection)
      case Pressure => RealValue(s.pressure)
      case AirTemperature => RealValue(s.airTemperature)
      case RelativeHumidity => RealValue(s.relativeHumidity)
      case Illuminance => RealValue(s.illuminance)
      case UvIndex => RealValue(s.uvIndex)
      case SolarRadiation => RealValue(s.solarRadiation)
      case RainAccumulated => RealValue(s.rainAccumulated)
      case PrecipitationType => TextValue(s.precipitationType)
      case LightningStrikesCount => IntValue(s.lightningStrikesCount)
      case LightningStrikeAverageDistance => RealValue(s.lightningStrikeAverageDistance)
      case _ => TimeValue(s.timestamp))
  }

  /** Only the daily rain of a sky sample holds None. */
  lemma FieldValueNone(o: Observation)
    ensures forall f :: FieldValue(o, f) == NoneValue ==> o.SkyObs? && f == RainAccumulatedDay
  {
    forall f | FieldValue(o, f) == NoneValue
      ensures o.SkyObs? && f == RainAccumulatedDay
    {
      match o
      case SkyObs(s) =>
      case _ =>
    }
  }

  /** `asdict(sample)`: the sample's declared fields and their values; only
      the daily rain of a sky sample can be None. */
  function AsDict(o: Observation): (d: map<Field, Cell>)
    ensures d.Keys == FieldsOf(o.Kind())
    ensures forall f :: f in d && d[f] == NoneValue ==> o.SkyObs? && f == RainAccumulatedDay
  {
    FieldValueNone(o);
    map f | f in FieldsOf(o.Kind()) :: FieldValue(o, f)
  }

  /** A combined state: a value for each of the 17 fields. */
  type TempestState = m: map<Field, Cell> | m.Keys == AllFields
    witness map f | f in AllFields :: NoneValue

  /** `TempestState(*values)`: the i-th positional value goes to the i-th
      declared field. */
  function FromPositional(values: seq<Cell>): (s: TempestState)
    requires |values| == |FieldOrder|
    ensures forall i :: 0 <= i < |FieldOrder| ==> s[FieldOrder[i]] == values[i]
  {
    FieldOrderListsSchema();
    var m := map i | 0 <= i < |FieldOrder| :: FieldOrder[i] := values[i];
    assert forall f :: f in m <==> f in FieldOrder;
    m
  }

  /** `TempestState.empty_state`: every field None. */
  function EmptyState(): (s: TempestState)
    ensures forall f :: f in s ==> s[f] == NoneValue
  {
    map f | f in AllFields :: NoneValue
  }

  /** The empty state is the state built from seventeen positional Nones. */
  lemma EmptyStateIsPositionalNones()
    ensures EmptyState() == FromPositional(seq(17, _ => NoneValue))
  {
  }

  /** `TempestState.update`: the fields the sample declares take the
      sample's values, every other field keeps the state's. */
  function Update(s: TempestState, o: Observation): (r: TempestState)
    ensures forall f :: f in FieldsOf(o.Kind()) ==> r[f] == AsDict(o)[f]
    ensures forall f :: f in AllFields && f !in FieldsOf(o.Kind()) ==> r[f] == s[f]
  {
    var d := AsDict(o);
    FieldsInSchema(o.Kind());
    OverrideKeys(s, d, AllFields);
    s + d
  }

  /** Overriding a map with one whose keys it already has keeps its keys. */
  lemma OverrideKeys<K, V>(m: map<K, V>, a: map<K, V>, keys: set<K>)
    requires m.Keys == keys && a.Keys <= keys
    ensures (m + a).Keys == keys
  {
  }

  /** Two successive updates: the later sample wins on the fields it carries,
      the earlier on the remaining fields it carries, the state on the rest. */
  lemma UpdateLastWriterWins(s: TempestState, a: Observation, b: Observation)
    ensures forall f :: f in AllFields ==>
      Update(Update(s, a), b)[f] == (if f in FieldsOf(b.Kind()) then AsDict(b)[f]
      else if f in FieldsOf(a.Kind()) then AsDict(a)[f]
      else s[f])
  {
  }

  /** An update is overwritten entirely by a later one whose sample covers
      all the fields of its own. */
  lemma UpdateAbsorbed(s: TempestState, a: Observation, b: Observation)
    requires FieldsOf(a.Kind()) <= FieldsOf(b.Kind())
    ensures Update(Update(s, a), b) == Update(s, b)
  {
    OverrideAbsorbed(s, AsDict(a), AsDict(b));
  }

  /** Overriding with `a` and then `b` is overriding with `b` alone when `b`
      has every key of `a`. */
  lemma OverrideAbsorbed<K, V>(m: map<K, V>, a: map<K, V>, b: map<K, V>)
    requires a.Keys <= b.Keys
    ensures (m + a) + b == m + b
  {
  }

  /** Applying the same sample twice is the same as applying it once. */
  lemma UpdateIdempotent(s: TempestState, o: Observation)
    ensures Update(Update(s, o), o) == Update(s, o)
  {
    UpdateAbsorbed(s, o, o);
  }

  // ---------------------------------------------------------------------------
  // A stream of samples, each merged with `update` in turn

  /** Sample `o` carries field `f`. */
  predicate Carries(o: Observation, f: Field)
  {
    f in FieldsOf(o.Kind())
  }

  /** `samples[i]` is the last sample of the stream that carries `f`. */
  predicate LastCarrier(samples: seq<Observation>, f: Field, i: int)
  {
    && 0 <= i < |samples|
    && Carries(samples[i], f)
    && forall j :: i < j < |samples| ==> !Carries(samples[j], f)
  }

  /** Field `f` of `r` is what merging `samples` into `s` should leave there:
      the value of the last sample that carries it, or the starting value. */
  predicate MergedAt(s: TempestState, samples: seq<Observation>, r: TempestState, f: Field)
  {
    InSchema(f);
    && ((forall i :: 0 <= i < |samples| ==> !Carries(samples[i], f)) ==> r[f] == s[f])
    && (forall i :: 0 <= i < |samples| && LastCarrier(samples, f, i) ==> r[f] == AsDict(samples[i])[f])
  }

  /** The state after `update` has been applied to each sample in turn: each
      field holds the value of the last sample that carries it, and keeps the
      starting value when no sample does. */
  function UpdateAll(s: TempestState, samples: seq<Observation>): (r: TempestState)
    ensures forall f :: MergedAt(s, samples, r, f)
    decreases |samples|
  {
    if samples == [] then s
    else
      var prefix := samples[..|samples| - 1];
      var o := samples[|samples| - 1];
      assert samples == prefix + [o];
      var before := UpdateAll(s, prefix);
      UpdateStep(s, prefix, o, samples, before);
      Update(before, o)
  }

  /** One more `update` extends the merge of a stream by its last sample. */
  lemma UpdateStep(s: TempestState, prefix: seq<Observation>, o: Observation,
                   samples: seq<Observation>, before: TempestState)
    requires samples == prefix + [o]
    requires forall f :: MergedAt(s, prefix, before, f)
    ensures forall f :: MergedAt(s, samples, Update(before, o), f)
  {
    forall f
      ensures MergedAt(s, samples, Update(before, o), f)
    {
      UpdateStepAt(s, prefix, o, samples, before, f);
    }
  }

  lemma UpdateStepAt(s: TempestState, prefix: seq<Observation>, o: Observation,
                     samples: seq<Observation>, before: TempestState, f: Field)
    requires samples == prefix + [o]
    requires MergedAt(s, prefix, before, f)
    ensures MergedAt(s, samples, Update(before, o), f)
  {
    InSchema(f);
    assert samples[|prefix|] == o;
    if Carries(o, f) {
      CarriedByLast(s, prefix, o, samples, before, f);
    } else {
      NotCarriedByLast(s, prefix, o, samples, before, f);
    }
  }

  /** A field the new sample carries takes the sample's value. */
  lemma CarriedByLast(s: TempestState, prefix: seq<Observation>, o: Observation,
                      samples: seq<Observation>, before: TempestState, f: Field)
    requires samples == prefix + [o] && Carries(o, f) && f in AllFields
    ensures MergedAt(s, samples, Update(before, o), f)
  {
    var r := Update(before, o);
    assert samples[|prefix|] == o;
    forall i | 0 <= i < |samples| && LastCarrier(samples, f, i)
      ensures r[f] == AsDict(samples[i])[f]
    {
      assert i == |prefix|;
    }
  }

  /** A field the new sample does not carry keeps its merged value. */
  lemma NotCarriedByLast(s: TempestState, prefix: seq<Observation>, o: Observation,
                         samples: seq<Observation>, before: TempestState, f: Field)
    requires samples == prefix + [o] && !Carries(o, f) && f in AllFields
    requires MergedAt(s, prefix, before, f)
    ensures MergedAt(s, samples, Update(before, o), f)
  {
    var r := Update(before, o);
    assert r[f] == before[f];
    assert forall j :: 0 <= j < |prefix| ==> samples[j] == prefix[j];
    forall i | 0 <= i < |samples| && LastCarrier(samples, f, i)
      ensures r[f] == AsDict(samples[i])[f]
    {
      assert i < |prefix| && prefix[i] == samples[i];
      assert LastCarrier(prefix, f, i);
    }
    if forall i :: 0 <= i < |samples| ==> !Carries(samples[i], f) {
      assert forall i :: 0 <= i < |prefix| ==> !Carries(prefix[i], f);
    }
  }

  /** Merging a stream is merging its first part, then the rest. */
  lemma {:induction false} UpdateAllAppend(s: TempestState, a: seq<Observation>, b: seq<Observation>)
    ensures UpdateAll(s, a + b) == UpdateAll(UpdateAll(s, a), b)
    decreases |b|
  {
    if b == [] {
      assert a + b == a;
    } else {
      var last := |b| - 1;
      assert (a + b)[..|a + b| - 1] == a + b[..last];
      assert (a + b)[|a + b| - 1] == b[last];
      UpdateAllAppend(s, a, b[..last]);
    }
  }

  /** A station sample overwrites everything an air sample set before it. */
  lemma StationSupersedesAir(s: TempestState, air: AirObservation, station: StationObservation)
    ensures Update(Update(s, AirObs(air)), StationObs(station)) == Update(s, StationObs(station))
  {
    UpdateAbsorbed(s, AirObs(air), StationObs(station));
  }

  /** A station sample declares every field of the state but the wind
      speed and the daily rain. */
  lemma StationDeclares(f: Field)
    requires f in AllFields
    ensures f in FieldsOf(StationKind) <==> f != WindSpeed && f != RainAccumulatedDay
  {
  }

  /** From the empty state, a station sample leaves field `f` None exactly
      when `f` is the wind speed or the daily rain. */
  lemma StationIntoEmptyStateAt(station: StationObservation, f: Field)
    requires f in AllFields
    ensures Update(EmptyState(), StationObs(station))[f] == NoneValue <==> f == WindSpeed || f == RainAccumulatedDay
  {
    var e := EmptyState();
    var s := Update(e, StationObs(station));
    StationDeclares(f);
    if f == WindSpeed || f == RainAccumulatedDay {
      assert s[f] == e[f];
      assert s[f] == NoneValue;
    } else {
      assert s[f] == AsDict(StationObs(station))[f];
      assert s[f] != NoneValue;
    }
  }

  /** From the empty state, a station sample leaves exactly the wind speed
      and the daily rain None. */
  lemma StationIntoEmptyState(station: StationObservation)
    ensures forall f :: f in AllFields ==>
      (Update(EmptyState(), StationObs(station))[f] == NoneValue <==> f == WindSpeed || f == RainAccumulatedDay)
  {
    forall f | f in AllFields
      ensures Update(EmptyState(), StationObs(station))[f] == NoneValue <==> f == WindSpeed || f == RainAccumulatedDay
    {
      StationIntoEmptyStateAt(station, f);
    }
  }
}
