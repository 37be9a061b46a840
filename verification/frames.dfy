/**
 * The control frames a client sends to a Lavalink node over its websocket:
 * one constructor per frame kind, the JSON object the client builds for it,
 * and a decoder that recovers the frame from that object.
 */
module Frames {
  import opened Py

  /** An outbound frame; guild ids are snowflakes, sent as their decimal string. */
  datatype OutFrame =
    | Play(guild: int, track: Json, noReplace: bool)
    | Stop(guild: int)
    | Pause(guild: int, pause: bool)
    | Volume(guild: int, volume: int)
    | Destroy(guild: int)
    | VoiceUpdate(sessionId: string, guild: int, token: string, endpoint: string)

  /** The `voiceUpdate` event object: the voice token, guild and endpoint. */
  function VoiceEvent(guild: int, token: string, endpoint: string): (j: Json)
    ensures j.JObj? && j.fields.Keys == {"token", "guild_id", "endpoint"}
  {
    JObj(map["token" := JStr(token), "guild_id" := JStr(IntStr(guild)), "endpoint" := JStr(endpoint)])
  }

  /** The JSON object the client sends for a frame. */
  function Encode(f: OutFrame): (j: Json)
    ensures j.JObj? && "op" in j.fields && "guildId" in j.fields
    ensures j.fields["guildId"] == JStr(IntStr(f.guild))
  {
    var g := JStr(IntStr(f.guild));
    match f
    case Play(_, track, noReplace) =>
      JObj(map["op" := JStr("play"), "guildId" := g, "track" := track, "noReplace" := JBool(noReplace)])
    case Stop(_) => JObj(map["op" := JStr("stop"), "guildId" := g])
    case Pause(_, pause) => JObj(map["op" := JStr("pause"), "guildId" := g, "pause" := JBool(pause)])
    case Volume(_, volume) => JObj(map["op" := JStr("volume"), "guildId" := g, "volume" := JInt(volume)])
    case Destroy(_) => JObj(map["op" := JStr("destroy"), "guildId" := g])
    case VoiceUpdate(sessionId, guild, token, endpoint) =>
      JObj(map[
        "op" := JStr("voiceUpdate"), "sessionId" := JStr(sessionId), "guildId" := g,
        "event" := VoiceEvent(guild, token, endpoint)])
  }

  /** Reads a frame back from a JSON object, as a node would. */
  function Decode(j: Json): (r: Option<OutFrame>)
    ensures r.Some? ==> j.JObj? && "op" in j.fields
  {
    if !j.JObj? || "op" !in j.fields || "guildId" !in j.fields || !j.fields["guildId"].JStr? then None
    else
      var m := j.fields;
      match ParseInt(m["guildId"].s)
      case None => None
      case Some(g) =>
        var op := m["op"];
        if op == JStr("play") then
          if "track" in m && "noReplace" in m && m["noReplace"].JBool? then
            Some(Play(g, m["track"], m["noReplace"].b))
          else None
        else if op == JStr("stop") then Some(Stop(g))
        else if op == JStr("pause") then
          if "pause" in m && m["pause"].JBool? then Some(Pause(g, m["pause"].b)) else None
        else if op == JStr("volume") then
          if "volume" in m && m["volume"].JInt? then Some(Volume(g, m["volume"].i)) else None
        else if op == JStr("destroy") then Some(Destroy(g))
        else if op == JStr("voiceUpdate") then
          if "sessionId" in m && m["sessionId"].JStr? && "event" in m && m["event"].JObj?
            && "token" in m["event"].fields && m["event"].fields["token"].JStr?
            && "endpoint" in m["event"].fields && m["event"].fields["endpoint"].JStr?
          then
            Some(VoiceUpdate(m["sessionId"].s, g, m["event"].fields["token"].s, m["event"].fields["endpoint"].s))
          else None
        else None
  }

  /** A node reads back exactly the frame the client meant to send. */
  lemma DecodeEncode(f: OutFrame)
    ensures Decode(Encode(f)) == Some(f)
  {
    ParseIntStr(f.guild);
  }

  /** Distinct frames are sent as distinct JSON objects. */
  lemma EncodeInjective(f: OutFrame, g: OutFrame)
    ensures Encode(f) == Encode(g) ==> f == g
  {
    DecodeEncode(f);
    DecodeEncode(g);
  }

  /** In a `voiceUpdate` frame both guild fields carry the same decimal guild id. */
  lemma VoiceUpdateGuildFields(sessionId: string, guild: int, token: string, endpoint: string)
    ensures var j := Encode(VoiceUpdate(sessionId, guild, token, endpoint));
      j.fields.Keys == {"op", "sessionId", "guildId", "event"} &&
      j.fields["op"] == JStr("voiceUpdate") && j.fields["sessionId"] == JStr(sessionId) &&
      j.fields["event"].fields["guild_id"] == j.fields["guildId"] &&
      j.fields["event"].fields["token"] == JStr(token) &&
      j.fields["event"].fields["endpoint"] == JStr(endpoint) &&
      PyInt(j.fields["guildId"]) == Ok(guild)
  {
    PyIntOfIntStr(guild);
  }
}
