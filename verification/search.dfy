/**
 * What a node makes of its lookup endpoints' replies: the query prefix that
 * selects a search provider, the classification of a `/loadtracks` payload by
 * its `loadType`, and the wrapping of a `/decodetrack` reply into a track.
 * The HTTP round trip itself is replaced by the decoded reply.
 */
module Search {
  import opened Py
  import opened Models

  const YoutubePrefix: string := "ytsearch:"
  const SoundcloudPrefix: string := "scsearch:"

  /** What `search_tracks` returns when it returns something. */
  datatype Loaded =
    | Found(result: SearchResult)
    | Single(track: Track)
    | Listed(playlist: Playlist)

  /** The identifier sent to the node: YouTube search wins over SoundCloud search. */
  function Query(query: string, yt: bool, sc: bool): (q: string)
    ensures yt ==> q == YoutubePrefix + query
    ensures !yt && sc ==> q == SoundcloudPrefix + query
    ensures !yt && !sc ==> q == query
  {
    if yt then YoutubePrefix + query
    else if sc then SoundcloudPrefix + query
    else query
  }

  /** The prefix can be removed again: the query is always the identifier's tail. */
  lemma QueryKeepsQuery(query: string, yt: bool, sc: bool)
    ensures var q := Query(query, yt, sc);
      |q| >= |query| && q[|q| - |query|..] == query &&
      (yt || sc ==> |q| == |query| + 9)
  {
  }

  /** `f"{a}: {b}"` */
  function Message(a: Json, b: Json): string {
    Str(a) + ": " + Str(b)
  }

  /** The playlist branch: all tracks, then name and selected track from `playlistInfo`. */
  function PlaylistOf(payload: Json): (r: Result<Playlist>)
    ensures r.Ok? ==> Index(payload, "tracks").Ok? && DecodeAll(payload.fields["tracks"]) == Ok(r.value.tracks)
  {
    var raw :- Index(payload, "tracks");
    var tracks :- DecodeAll(raw);
    var info :- Index(payload, "playlistInfo");
    var name :- Index(info, "name");
    var selected :- Index(info, "selectedTrack");
    Ok(Playlist(name, tracks, selected))
  }

  /**
   * `Node.search_tracks` on the decoded reply. A truthy `error` is reported
   * before `loadType` is looked at; an unknown `loadType` returns None. Both
   * raise sites name the client's load error through a module attribute:
   * `resolves` says whether that lookup succeeds, and when it does not the
   * lookup raises AttributeError before the message is built.
   */
  function Respond(payload: Json, query: string, resolves: bool): (r: Result<Option<Loaded>>)
    ensures r.Ok? ==> payload.JObj? && !Truthy(Get(payload, "error").value)
    ensures r.Ok? && r.value.Some? && r.value.value.Found? ==> r.value.value.result.query == query
  {
    var error :- Get(payload, "error");
    if Truthy(error) then
      if !resolves then Err(AttributeError("TrackLoadError"))
      else
        var message :- Index(payload, "message");
        Err(TrackLoadError(Message(error, message)))
    else
      var loadType :- Index(payload, "loadType");
      if loadType == JStr("SEARCH_RESULT") then
        var raw :- Index(payload, "tracks");
        var tracks :- DecodeAll(raw);
        Ok(Some(Found(SearchResult(tracks, query))))
      else if loadType == JStr("TRACK_LOADED") then
        var raw :- Index(payload, "tracks");
        var first :- First(raw);
        var track :- FromDict(first);
        Ok(Some(Single(track)))
      else if loadType == JStr("PLAYLIST_LOADED") then
        var playlist :- PlaylistOf(payload);
        Ok(Some(Listed(playlist)))
      else if loadType == JStr("LOAD_FAILED") then
        var exception :- Index(payload, "exception");
        if !resolves then Err(AttributeError("TrackLoadError"))
        else
          var severity :- Index(exception, "severity");
          var message :- Index(exception, "message");
          Err(TrackLoadError(Message(severity, message)))
      else Ok(None)
  }

  /** The reply classified with the load error the client defines. */
  function Classify(payload: Json, query: string): (r: Result<Option<Loaded>>)
    ensures r.Ok? ==> payload.JObj? && !Truthy(Get(payload, "error").value)
    ensures r.Ok? && r.value.Some? && r.value.value.Found? ==> r.value.value.result.query == query
  {
    Respond(payload, query, true)
  }

  /**
   * The reply classified as written: the load error is looked up in the
   * `models` module, which does not define it.
   */
  function ClassifyAsWritten(payload: Json, query: string): (r: Result<Option<Loaded>>)
    ensures r.Ok? <==> Classify(payload, query).Ok?
    ensures r.Ok? ==> r == Classify(payload, query)
  {
    Respond(payload, query, false)
  }

  /** A reported error is raised with its message, whatever the rest of the payload says. */
  lemma ClassifyReportsErrorFirst(payload: Json, query: string)
    requires payload.JObj? && "error" in payload.fields && Truthy(payload.fields["error"])
    requires "message" in payload.fields
    ensures Classify(payload, query) ==
      Err(TrackLoadError(Message(payload.fields["error"], payload.fields["message"])))
  {
  }

  /** A search result holds every track of the reply, in order, and the query sent. */
  lemma ClassifySearchResult(payload: Json, query: string)
    requires payload.JObj? && !Truthy(Get(payload, "error").value)
    requires Index(payload, "loadType") == Ok(JStr("SEARCH_RESULT"))
    requires Index(payload, "tracks").Ok? && DecodeAll(payload.fields["tracks"]).Ok?
    ensures Classify(payload, query) ==
      Ok(Some(Found(SearchResult(DecodeAll(payload.fields["tracks"]).value, query))))
  {
  }

  /** A loaded track is the first track of the reply only. */
  lemma ClassifyTrackLoaded(payload: Json, query: string, first: Json, rest: seq<Json>)
    requires payload.JObj? && !Truthy(Get(payload, "error").value)
    requires Index(payload, "loadType") == Ok(JStr("TRACK_LOADED"))
    requires Index(payload, "tracks") == Ok(JArr([first] + rest))
    requires FromDict(first).Ok?
    ensures Classify(payload, query) == Ok(Some(Single(FromDict(first).value)))
  {
  }

  /** A loaded playlist has every track, and the name and selection from `playlistInfo`. */
  lemma ClassifyPlaylist(payload: Json, query: string)
    requires payload.JObj? && !Truthy(Get(payload, "error").value)
    requires Index(payload, "loadType") == Ok(JStr("PLAYLIST_LOADED"))
    requires PlaylistOf(payload).Ok?
    ensures Classify(payload, query) == Ok(Some(Listed(PlaylistOf(payload).value)))
    ensures var info := payload.fields["playlistInfo"]; var p := PlaylistOf(payload).value;
      info.JObj? && p.name == info.fields["name"] && p.selectedTrack == info.fields["selectedTrack"]
  {
  }

  /** A failed load is raised with the severity and message of its exception. */
  lemma ClassifyLoadFailed(payload: Json, query: string, severity: Json, message: Json)
    requires payload.JObj? && !Truthy(Get(payload, "error").value)
    requires Index(payload, "loadType") == Ok(JStr("LOAD_FAILED")) && Index(payload, "exception").Ok?
    requires Index(payload.fields["exception"], "severity") == Ok(severity)
    requires Index(payload.fields["exception"], "message") == Ok(message)
    ensures Classify(payload, query) == Err(TrackLoadError(Message(severity, message)))
  {
  }

  /** Any other `loadType` (such as `NO_MATCHES`) falls through every branch to None. */
  lemma ClassifyOtherLoadType(payload: Json, query: string)
    requires payload.JObj? && !Truthy(Get(payload, "error").value) && "loadType" in payload.fields
    requires payload.fields["loadType"] !in
      {JStr("SEARCH_RESULT"), JStr("TRACK_LOADED"), JStr("PLAYLIST_LOADED"), JStr("LOAD_FAILED")}
    ensures Classify(payload, query) == Ok(None)
  {
  }

  /** As written, a reported error surfaces as AttributeError instead of the load error. */
  lemma ReportedErrorAsWritten(payload: Json, query: string)
    requires payload.JObj? && "error" in payload.fields && Truthy(payload.fields["error"])
    ensures ClassifyAsWritten(payload, query) == Err(AttributeError("TrackLoadError"))
  {
  }

  /** The smallest such reply: the code as written and the corrected classification disagree on it. */
  lemma ReportedErrorExample(query: string, error: string, message: string)
    requires error != ""
    ensures var payload := JObj(map["error" := JStr(error), "message" := JStr(message)]);
      ClassifyAsWritten(payload, query) == Err(AttributeError("TrackLoadError")) &&
      Classify(payload, query) == Err(TrackLoadError(error + ": " + message))
  {
    var payload := JObj(map["error" := JStr(error), "message" := JStr(message)]);
    ReportedErrorAsWritten(payload, query);
    ClassifyReportsErrorFirst(payload, query);
  }

  /** As written, a failed load also surfaces as AttributeError instead of the load error. */
  lemma LoadFailedAsWritten(payload: Json, query: string)
    requires payload.JObj? && !Truthy(Get(payload, "error").value)
    requires Index(payload, "loadType") == Ok(JStr("LOAD_FAILED")) && Index(payload, "exception").Ok?
    ensures ClassifyAsWritten(payload, query) == Err(AttributeError("TrackLoadError"))
  {
  }

  /**
   * `Node.search_tracks` as written: the query gets its provider prefix, then
   * the reply is classified with the load error looked up in `models`.
   */
  function SearchTracks(payload: Json, query: string, yt: bool, sc: bool): (r: Result<Option<Loaded>>)
    ensures r.Ok? ==> r == Classify(payload, Query(query, yt, sc))
    ensures r.Ok? && r.value.Some? && r.value.value.Found? ==> r.value.value.result.query == Query(query, yt, sc)
    ensures Classify(payload, Query(query, yt, sc)).Err? ==> r.Err?
  {
    ClassifyAsWritten(payload, Query(query, yt, sc))
  }

  /** The length of a loaded playlist is the number of tracks in the reply. */
  lemma PlaylistLen(payload: Json)
    requires PlaylistOf(payload).Ok? && payload.fields["tracks"].JArr?
    ensures Len(PlaylistOf(payload).value) == |payload.fields["tracks"].items|
  {
  }

  /** `Node.fetch_track`: the reply is the `info` object and the id is the one asked for. */
  function FetchTrack(trackId: string, payload: Json): (r: Result<Track>)
    ensures r.Ok? ==> r.value.id == JStr(trackId)
  {
    FromDict(JObj(map["track" := JStr(trackId), "info" := payload]))
  }

  /** Fetching a track by its id, given the node's description of it, gives that track. */
  lemma FetchTrackInfo(t: Track, trackId: string)
    requires t.id == JStr(trackId)
    ensures FetchTrack(trackId, InfoOf(t)) == Ok(t)
  {
    assert JObj(map["track" := JStr(trackId), "info" := InfoOf(t)]) == ToDict(t);
    FromDictToDict(t);
  }
}
