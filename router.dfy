/** `get_message_object`: the lookup of a message's `type` in the table of
    the four known message kinds, and the dispatch to that kind's decoder. */
module Router {
  import opened PyJson
  import opened Observations
  import opened WireRows

  /** `EVENT_TO_CONTAINER`: the message type tags the collector decodes. */
  const EventToContainer: map<string, Kind> := map[
    "obs_air" := AirKind,
    "rapid_wind" := RapidWindKind,
    "obs_sky" := SkyKind,
    "obs_st" := StationKind
  ]

  /** The tag under which a kind is sent. */
  function Tag(k: Kind): string
  {
    match k
    case RapidWindKind => "rapid_wind"
    case AirKind => "obs_air"
    case SkyKind => "obs_sky"
    case StationKind => "obs_st"
  }

  /** The table and Tag are inverse to each other: one tag per kind, one kind per tag. */
  lemma TagTableInverse()
    ensures forall t :: t in EventToContainer ==> Tag(EventToContainer[t]) == t
    ensures forall k: Kind :: Tag(k) in EventToContainer && EventToContainer[Tag(k)] == k
  {
  }

  /** `from_msg` of the class the table names. */
  function Decode(k: Kind, msg: Json): (r: Result<Observation>)
    ensures r.Ok? ==> r.value.Kind() == k
  {
    match k
    case RapidWindKind => var w :- RapidWindFromMsg(msg); Ok(RapidWindObs(w))
    case AirKind => var a :- AirFromMsg(msg); Ok(AirObs(a))
    case SkyKind => var s :- SkyFromMsg(msg); Ok(SkyObs(s))
    case StationKind => var s :- StationFromMsg(msg); Ok(StationObs(s))
  }

  /** A `type` value that `dict.get` can look up: lists and dictionaries
      are unhashable. */
  predicate Hashable(t: Json)
  {
    !t.Arr? && !t.Obj?
  }

  /** A `type` value the table does not hold. */
  predicate Unrecognized(t: Json)
  {
    Hashable(t) && !(t.Str? && t.s in EventToContainer)
  }

  /** `get_message_object`: None for a type the table does not hold, the
      decoded sample otherwise; a missing `type` key raises KeyError. */
  function GetMessageObject(msg: Json): (r: Result<Option<Observation>>)
    ensures !msg.Obj? ==> r == Err(TypeError)
    ensures msg.Obj? && "type" !in msg.fields ==> r == Err(KeyError)
    ensures r == Ok(None) <==> msg.Obj? && "type" in msg.fields && Unrecognized(msg.fields["type"])
    ensures r.Ok? && r.value.Some? ==>
      msg.Obj? && "type" in msg.fields && msg.fields["type"] == Str(Tag(r.value.value.Kind()))
  {
    var messageType :- Subscript(msg, "type");
    if !Hashable(messageType) then Err(TypeError)
    else if messageType.Str? && messageType.s in EventToContainer then
      var obs :- Decode(EventToContainer[messageType.s], msg);
      Ok(Some(obs))
    else
      Ok(None)
  }

  /** A list or dictionary under `type` cannot be looked up in the table:
      `dict.get` raises TypeError before any decoder runs. */
  lemma UnhashableTypeRaises(msg: Json)
    requires msg.Obj? && "type" in msg.fields
    requires msg.fields["type"].Arr? || msg.fields["type"].Obj?
    ensures GetMessageObject(msg) == Err(TypeError)
  {
  }

  /** A message tagged with a known kind gives exactly what that kind's
      decoder gives: its sample, or its error. */
  lemma GetMessageObjectDispatches(msg: Json, k: Kind)
    requires msg.Obj? && "type" in msg.fields && msg.fields["type"] == Str(Tag(k))
    ensures GetMessageObject(msg).Ok? <==> Decode(k, msg).Ok?
    ensures GetMessageObject(msg).Ok? ==> GetMessageObject(msg).value == Some(Decode(k, msg).value)
    ensures GetMessageObject(msg).Err? ==> GetMessageObject(msg).error == Decode(k, msg).error
  {
  }

  /** A heartbeat-like message type outside the table yields no object and no error. */
  lemma DeviceStatusIgnored(fields: map<string, Json>)
    ensures GetMessageObject(Obj(fields["type" := Str("device_status")])) == Ok(None)
  {
  }

  /** A message a station sends for a sample comes back from the router as that sample. */
  lemma RoutedRoundTrip(o: Observation, filler: Json)
    requires o.SkyObs? ==> SkyEncodable(o.sky)
    requires o.StationObs? ==> StationEncodable(o.station)
    ensures var msg := match o
      case RapidWindObs(w) => Obj(map["type" := Str("rapid_wind"), "ob" := RapidWindRow(w)])
      case AirObs(a) => BatchMessage("obs_air", AirRow(a, filler, filler))
      case SkyObs(s) => BatchMessage("obs_sky", SkyRow(s, filler, filler, filler))
      case StationObs(s) => BatchMessage("obs_st", StationRow(s, filler, filler, filler));
      GetMessageObject(msg) == Ok(Some(o))
  {
    match o
    case RapidWindObs(w) =>
      RapidWindRoundTrip(w, "rapid_wind");
      GetMessageObjectDispatches(Obj(map["type" := Str("rapid_wind"), "ob" := RapidWindRow(w)]), RapidWindKind);
    case AirObs(a) =>
      AirRoundTrip(a, filler, filler);
      GetMessageObjectDispatches(BatchMessage("obs_air", AirRow(a, filler, filler)), AirKind);
    case SkyObs(s) =>
      SkyRoundTrip(s, filler, filler, filler);
      GetMessageObjectDispatches(BatchMessage("obs_sky", SkyRow(s, filler, filler, filler)), SkyKind);
    case StationObs(s) =>
      StationRoundTrip(s, filler, filler, filler);
      GetMessageObjectDispatches(BatchMessage("obs_st", StationRow(s, filler, filler, filler)), StationKind);
  }
}
