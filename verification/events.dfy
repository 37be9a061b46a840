/**
 * Guild-keyed player lookup and the decoding of a node's `event` frames into
 * track-lifecycle events. Generic in the player type `P`, which is only
 * carried along.
 */
module Events {
  import opened Py

  /** The four track-lifecycle events; `player` is the guild's player, if registered. */
  datatype TrackEvent<P> =
    | TrackStart(track: Json, player: Option<P>)
    | TrackEnd(track: Json, reason: Json, player: Option<P>)
    | TrackStuck(track: Json, threshold: Json, player: Option<P>)
    | TrackException(track: Json, error: Json, player: Option<P>)

  /**
   * `players[int(guild)]` with a missing key answered by None; a guild that
   * `int()` rejects raises, since only KeyError is caught.
   */
  function Lookup<P>(players: map<int, P>, guild: Json): (r: Result<Option<P>>)
    ensures r.Err? <==> PyInt(guild).Err?
    ensures r.Err? ==> r.error == PyInt(guild).error
    ensures r.Ok? ==> (r.value.Some? <==> PyInt(guild).value in players)
    ensures r.Ok? && r.value.Some? ==> r.value.value == players[PyInt(guild).value]
  {
    var g :- PyInt(guild);
    Ok(if g in players then Some(players[g]) else None)
  }

  /** A guild named by its decimal string finds the same player as the guild id itself. */
  lemma LookupGuildString<P>(players: map<int, P>, guild: int)
    ensures Lookup(players, JStr(IntStr(guild))) == Lookup(players, JInt(guild))
    ensures Lookup(players, JInt(guild)) == Ok(if guild in players then Some(players[guild]) else None)
  {
    PyIntOfIntStr(guild);
  }

  /** `payload["type"] == name`, raising when the frame has no `type`. */
  function TypeIs(payload: Json, name: string): (r: Result<bool>)
    ensures r.Ok? <==> Index(payload, "type").Ok?
    ensures r.Ok? ==> (r.value <==> payload.fields["type"] == JStr(name))
  {
    var t :- Index(payload, "type");
    Ok(t == JStr(name))
  }

  /**
   * `Connection.deserialise_track_events` with the stuck event built under its
   * declared `threshold` keyword: the player is looked up first, then `type`
   * picks the variant; an unknown type gives None.
   */
  function Deserialise<P>(payload: Json, players: map<int, P>): (r: Result<Option<TrackEvent<P>>>)
    ensures r.Ok? ==> Index(payload, "guildId").Ok? && Index(payload, "type").Ok?
  {
    var guild :- Index(payload, "guildId");
    var g :- PyInt(guild);
    var player := Lookup(players, JInt(g)).value;  // `int()` of an int cannot fail
    var start :- TypeIs(payload, "TrackStartEvent");
    if start then
      var track :- Index(payload, "track");
      Ok(Some(TrackStart(track, player)))
    else
      var end :- TypeIs(payload, "TrackEndEvent");
      if end then
        var track :- Index(payload, "track");
        var reason :- Index(payload, "reason");
        Ok(Some(TrackEnd(track, reason, player)))
      else
        var stuck :- TypeIs(payload, "TrackStuckEvent");
        if stuck then
          var track :- Index(payload, "track");
          var threshold :- Index(payload, "thresholdMs");
          Ok(Some(TrackStuck(track, threshold, player)))
        else
          var failed :- TypeIs(payload, "TrackExceptionEvent");
          if failed then
            var track :- Index(payload, "track");
            var error :- Index(payload, "error");
            Ok(Some(TrackException(track, error, player)))
          else Ok(None)
  }

  /**
   * `Connection.deserialise_track_events` as written: the stuck event is built
   * with the keyword `thershold`, which its constructor does not accept.
   */
  function DeserialiseAsWritten<P>(payload: Json, players: map<int, P>): (r: Result<Option<TrackEvent<P>>>)
    ensures r.Ok? ==> r.value.None? || !r.value.value.TrackStuck?
  {
    var guild :- Index(payload, "guildId");
    var g :- PyInt(guild);
    var player := Lookup(players, JInt(g)).value;  // `int()` of an int cannot fail
    var stuck :- TypeIs(payload, "TrackStuckEvent");
    if stuck then
      var track :- Index(payload, "track");
      var threshold :- Index(payload, "thresholdMs");
      Err(TypeError("__init__() got an unexpected keyword argument 'thershold'"))
    else Deserialise(payload, players)
  }

  /** The event frame a node sends, as the reference for the decoder. */
  function EventFrame<P>(guild: int, e: TrackEvent<P>): Json {
    var common := map["op" := JStr("event"), "guildId" := JStr(IntStr(guild)), "track" := e.track];
    match e
    case TrackStart(_, _) => JObj(common["type" := JStr("TrackStartEvent")])
    case TrackEnd(_, reason, _) => JObj(common["type" := JStr("TrackEndEvent")]["reason" := reason])
    case TrackStuck(_, threshold, _) =>
      JObj(common["type" := JStr("TrackStuckEvent")]["thresholdMs" := threshold])
    case TrackException(_, error, _) =>
      JObj(common["type" := JStr("TrackExceptionEvent")]["error" := error])
  }

  /** The `type` a node sends for each kind of event. */
  function TypeName<P>(e: TrackEvent<P>): string {
    match e
    case TrackStart(_, _) => "TrackStartEvent"
    case TrackEnd(_, _, _) => "TrackEndEvent"
    case TrackStuck(_, _, _) => "TrackStuckEvent"
    case TrackException(_, _, _) => "TrackExceptionEvent"
  }

  /**
   * `payload` carries event `e` for `guild`: a `guildId` that `int()` reads as
   * the guild, the event's `type`, its `track` and its own field. Other keys
   * may be present too.
   */
  predicate Carries<P>(payload: Json, guild: int, e: TrackEvent<P>) {
    Index(payload, "guildId").Ok? && PyInt(payload.fields["guildId"]) == Ok(guild) &&
    Index(payload, "type") == Ok(JStr(TypeName(e))) &&
    Index(payload, "track") == Ok(e.track) &&
    match e
    case TrackStart(_, _) => true
    case TrackEnd(_, reason, _) => Index(payload, "reason") == Ok(reason)
    case TrackStuck(_, threshold, _) => Index(payload, "thresholdMs") == Ok(threshold)
    case TrackException(_, error, _) => Index(payload, "error") == Ok(error)
  }

  /**
   * Any frame carrying an event decodes to that event's variant, with the
   * fields it carries and the player registered for the guild.
   */
  lemma DeserialiseEvent<P>(payload: Json, players: map<int, P>, guild: int, e: TrackEvent<P>)
    requires Carries(payload, guild, e)
    requires e.player == (if guild in players then Some(players[guild]) else None)
    ensures Deserialise(payload, players) == Ok(Some(e))
  {
    LookupGuildString(players, guild);
    assert "TrackStartEvent"[7] != "TrackStuckEvent"[7];
    match e
    case TrackStart(_, _) =>
      assert TypeIs(payload, "TrackStartEvent") == Ok(true);
    case TrackEnd(_, _, _) =>
      assert TypeIs(payload, "TrackStartEvent") == Ok(false);
      assert TypeIs(payload, "TrackEndEvent") == Ok(true);
    case TrackStuck(_, _, _) =>
      assert TypeIs(payload, "TrackStartEvent") == Ok(false);
      assert TypeIs(payload, "TrackEndEvent") == Ok(false);
      assert TypeIs(payload, "TrackStuckEvent") == Ok(true);
    case TrackException(_, _, _) =>
      assert TypeIs(payload, "TrackStartEvent") == Ok(false);
      assert TypeIs(payload, "TrackEndEvent") == Ok(false);
      assert TypeIs(payload, "TrackStuckEvent") == Ok(false);
      assert TypeIs(payload, "TrackExceptionEvent") == Ok(true);
  }

  /**
   * Each of the four event types decodes to its own variant with the fields the
   * node sent and the player registered for the guild.
   */
  lemma DeserialiseEventFrame<P>(players: map<int, P>, guild: int, e: TrackEvent<P>)
    requires e.player == (if guild in players then Some(players[guild]) else None)
    ensures Deserialise(EventFrame(guild, e), players) == Ok(Some(e))
  {
    EventFrameCarries(guild, e);
    DeserialiseEvent(EventFrame(guild, e), players, guild, e);
  }

  /** The frame a node sends for an event carries that event. */
  lemma EventFrameCarries<P>(guild: int, e: TrackEvent<P>)
    ensures Carries(EventFrame(guild, e), guild, e)
  {
    var frame := EventFrame(guild, e);
    assert frame.JObj? && frame.fields["guildId"] == JStr(IntStr(guild)) && frame.fields["track"] == e.track;
    PyIntOfIntStr(guild);
  }

  /** A frame whose `type` is none of the four decodes to None. */
  lemma DeserialiseUnknownType<P>(payload: Json, players: map<int, P>)
    requires payload.JObj? && "guildId" in payload.fields && "type" in payload.fields
    requires PyInt(payload.fields["guildId"]).Ok?
    requires payload.fields["type"] !in
      {JStr("TrackStartEvent"), JStr("TrackEndEvent"), JStr("TrackStuckEvent"), JStr("TrackExceptionEvent")}
    ensures Deserialise(payload, players) == Ok(None)
  {
  }

  /** As written, every well-formed stuck-event frame raises TypeError. */
  lemma StuckEventRaises<P>(players: map<int, P>, guild: int, track: Json, threshold: Json)
    ensures var frame := EventFrame<P>(guild, TrackStuck(track, threshold, None));
      DeserialiseAsWritten(frame, players).Err? &&
      DeserialiseAsWritten(frame, players).error.TypeError? &&
      Deserialise(frame, players).Ok?
  {
    StuckAsWritten(players, guild, track, threshold);
    StuckCorrected(players, guild, track, threshold);
  }

  lemma StuckAsWritten<P>(players: map<int, P>, guild: int, track: Json, threshold: Json)
    ensures var frame := EventFrame<P>(guild, TrackStuck(track, threshold, None));
      DeserialiseAsWritten(frame, players).Err? && DeserialiseAsWritten(frame, players).error.TypeError?
  {
    var frame := EventFrame<P>(guild, TrackStuck(track, threshold, None));
    PyIntOfIntStr(guild);
    assert Index(frame, "guildId") == Ok(JStr(IntStr(guild)));
    assert Index(frame, "track") == Ok(track);
    assert Index(frame, "thresholdMs") == Ok(threshold);
    assert TypeIs(frame, "TrackStuckEvent") == Ok(true);
    StuckPayloadRaises(frame, players);
  }

  /** As written, any payload with a guild, `type` TrackStuckEvent, a track and a threshold raises TypeError. */
  lemma StuckPayloadRaises<P>(payload: Json, players: map<int, P>)
    requires Index(payload, "guildId").Ok? && PyInt(payload.fields["guildId"]).Ok?
    requires TypeIs(payload, "TrackStuckEvent") == Ok(true)
    requires Index(payload, "track").Ok? && Index(payload, "thresholdMs").Ok?
    ensures DeserialiseAsWritten(payload, players) == Err(TypeError("__init__() got an unexpected keyword argument 'thershold'"))
  {
  }

  lemma StuckCorrected<P>(players: map<int, P>, guild: int, track: Json, threshold: Json)
    ensures Deserialise(EventFrame<P>(guild, TrackStuck(track, threshold, None)), players).Ok?
  {
    var e: TrackEvent<P> := TrackStuck(track, threshold, if guild in players then Some(players[guild]) else None);
    assert EventFrame(guild, e) == EventFrame<P>(guild, TrackStuck(track, threshold, None));
    DeserialiseEventFrame(players, guild, e);
  }

  /** Apart from stuck events, the code as written decodes like the corrected decoder. */
  lemma AsWrittenAgreesElsewhere<P>(payload: Json, players: map<int, P>)
    requires TypeIs(payload, "TrackStuckEvent") != Ok(true)
    ensures DeserialiseAsWritten(payload, players) == Deserialise(payload, players)
  {
  }
}
