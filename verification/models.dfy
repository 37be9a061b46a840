/**
 * Track, search-result and playlist values returned by a node's lookup
 * endpoints, and the decoding of a track from its JSON form.
 */
module Models {
  import opened Py

  /**
   * A track as the node describes it. Every attribute is copied verbatim from
   * the decoded payload, so each is kept as the JSON value it came from;
   * `ytid` is JNull when the payload has no YouTube identifier.
   */
  datatype Track = Track(
    id: Json,
    author: Json,
    title: Json,
    length: Json,
    position: Json,
    uri: Json,
    ytid: Json,
    isStream: Json,
    isSeekable: Json)

  datatype SearchResult = SearchResult(tracks: seq<Track>, query: string)

  datatype Playlist = Playlist(name: Json, tracks: seq<Track>, selectedTrack: Json)

  /** An argument that may or may not be a Track (Python is untyped). */
  datatype Value = TrackValue(track: Track) | OtherValue(other: Json)

  /** `Track.from_dict`: the id comes from `track`, everything else from `info`. */
  function FromDict(payload: Json): (r: Result<Track>)
    ensures r.Ok? ==> payload.JObj? && "track" in payload.fields && r.value.id == payload.fields["track"]
  {
    var info :- Index(payload, "info");
    var id :- Index(payload, "track");
    var author :- Index(info, "author");
    var title :- Index(info, "title");
    var length :- Index(info, "length");
    var position :- Index(info, "position");
    var uri :- Index(info, "uri");
    var ytid := Get(info, "identifier").value;  // `info` is an object by now
    var isStream :- Index(info, "isStream");
    var isSeekable :- Index(info, "isSeekable");
    Ok(Track(id, author, title, length, position, uri, ytid, isStream, isSeekable))
  }

  /** The `info` object a node sends for a track: the reference encoding. */
  function InfoOf(t: Track): (j: Json)
    ensures j.JObj? && "author" in j.fields && "identifier" in j.fields
  {
    JObj(map[
      "author" := t.author, "title" := t.title, "length" := t.length,
      "position" := t.position, "uri" := t.uri, "identifier" := t.ytid,
      "isStream" := t.isStream, "isSeekable" := t.isSeekable])
  }

  /** The `{"track": ..., "info": ...}` payload that describes a track. */
  function ToDict(t: Track): (j: Json)
    ensures j.JObj? && "track" in j.fields && "info" in j.fields
  {
    JObj(map["track" := t.id, "info" := InfoOf(t)])
  }

  /** Decoding the payload that describes a track gives back that track. */
  lemma FromDictToDict(t: Track)
    ensures FromDict(ToDict(t)) == Ok(t)
  {
  }

  /** Every field but the id is taken from `info`; a missing identifier gives JNull. */
  lemma FromDictFields(payload: Json)
    requires FromDict(payload).Ok?
    ensures payload.JObj? && "info" in payload.fields
    ensures var info := payload.fields["info"]; var t := FromDict(payload).value;
      info.JObj? &&
      t.author == info.fields["author"] && t.title == info.fields["title"] &&
      t.length == info.fields["length"] && t.position == info.fields["position"] &&
      t.uri == info.fields["uri"] && t.isStream == info.fields["isStream"] &&
      t.isSeekable == info.fields["isSeekable"] &&
      t.ytid == (if "identifier" in info.fields then info.fields["identifier"] else JNull)
  {
  }

  /** A payload without `info` fails on that key before anything else is read. */
  lemma FromDictNeedsInfo(payload: Json)
    requires payload.JObj? && "info" !in payload.fields
    ensures FromDict(payload) == Err(KeyError(JStr("info")))
  {
  }

  const ThumbPrefix: string := "https://img.youtube.com/vi/"
  const ThumbSuffix: string := "/mqdefault.jpg"

  /** `Track.thumbnail`: a YouTube thumbnail URL when `ytid` is truthy, else None. */
  function Thumbnail(t: Track): (r: Option<string>)
    ensures r.Some? <==> Truthy(t.ytid)
  {
    if Truthy(t.ytid) then Some(ThumbPrefix + Str(t.ytid) + ThumbSuffix) else None
  }

  /** The thumbnail URL embeds the identifier between a fixed prefix and suffix. */
  lemma ThumbnailEmbedsId(t: Track)
    requires Truthy(t.ytid)
    ensures var url := Thumbnail(t).value;
      |url| == |ThumbPrefix| + |Str(t.ytid)| + |ThumbSuffix| &&
      url[..|ThumbPrefix|] == ThumbPrefix &&
      url[|ThumbPrefix|..|url| - |ThumbSuffix|] == Str(t.ytid) &&
      url[|url| - |ThumbSuffix|..] == ThumbSuffix
  {
    var url := Thumbnail(t).value;
    assert url == ThumbPrefix + Str(t.ytid) + ThumbSuffix;
  }

  /** A string-identified YouTube track has the thumbnail of exactly that id. */
  lemma ThumbnailInjective(a: Track, b: Track)
    requires a.ytid.JStr? && b.ytid.JStr? && Truthy(a.ytid)
    requires Thumbnail(a) == Thumbnail(b)
    ensures a.ytid == b.ytid
  {
    ThumbnailEmbedsId(a);
    ThumbnailEmbedsId(b);
  }

  /** `Track.__eq__`: tracks compare by id only; any other operand is a TypeError. */
  function Equals(t: Track, other: Value): (r: Result<bool>)
    ensures r.Ok? <==> other.TrackValue?
    ensures r.Ok? ==> (r.value <==> t.id == other.track.id)
  {
    match other
    case TrackValue(u) => Ok(t.id == u.id)
    case OtherValue(_) => Err(TypeError("Expected a Track"))
  }

  /** `Track.__hash__`: the hash of the id under the process's hash; a list or object id is unhashable. */
  function Hash(t: Track, hashOf: Json -> int): (h: Result<int>)
    ensures h.Err? <==> t.id.JArr? || t.id.JObj?
    ensures h.Err? ==> h.error.TypeError?
    ensures h.Ok? ==> h.value == hashOf(t.id)
  {
    match t.id
    case JArr(_) => Err(TypeError("unhashable type: 'list'"))
    case JObj(_) => Err(TypeError("unhashable type: 'dict'"))
    case _ => Ok(hashOf(t.id))
  }

  /** Track equality is an equivalence relation. */
  lemma EqualsIsEquivalence(a: Track, b: Track, c: Track)
    ensures Equals(a, TrackValue(a)) == Ok(true)
    ensures Equals(a, TrackValue(b)) == Equals(b, TrackValue(a))
    ensures Equals(a, TrackValue(b)) == Ok(true) && Equals(b, TrackValue(c)) == Ok(true)
      ==> Equals(a, TrackValue(c)) == Ok(true)
  {
  }

  /** Equal tracks hash alike, whatever string hash the process uses. */
  lemma EqualTracksHashAlike(a: Track, b: Track, hashOf: Json -> int)
    requires Equals(a, TrackValue(b)) == Ok(true)
    ensures Hash(a, hashOf) == Hash(b, hashOf)
  {
  }

  /** A track whose telemetry changed is still equal to the original. */
  lemma EqualsIgnoresPlayback(t: Track, position: Json, length: Json)
    ensures Equals(t, TrackValue(t.(position := position, length := length))) == Ok(true)
  {
  }

  /** `YTPlaylist.__len__`: the number of tracks. */
  function Len(p: Playlist): (n: nat)
    ensures n == 0 <==> p.tracks == []
  {
    |p.tracks|
  }

  /** Element `k` is the first one that `from_dict` rejects. */
  predicate FirstFailure(xs: seq<Json>, k: int) {
    0 <= k < |xs| && FromDict(xs[k]).Err? && forall m :: 0 <= m < k ==> FromDict(xs[m]).Ok?
  }

  /** `[Track.from_dict(t) for t in xs]`: all decoded in order, or the first failure. */
  function DecodeList(xs: seq<Json>): (r: Result<seq<Track>>)
    ensures r.Ok? <==> forall k :: 0 <= k < |xs| ==> FromDict(xs[k]).Ok?
    ensures r.Ok? ==> |r.value| == |xs|
    ensures r.Ok? ==> forall k :: 0 <= k < |xs| ==> r.value[k] == FromDict(xs[k]).value
    ensures r.Err? ==> exists k :: FirstFailure(xs, k) && r.error == FromDict(xs[k]).error
  {
    if xs == [] then Ok([])
    else
      var t :- FromDict(xs[0]);
      var rest :- DecodeList(xs[1..]);
      assert forall k :: 1 <= k < |xs| ==> xs[k] == xs[1..][k - 1];
      Ok([t] + rest)
  }

  /**
   * Iterating a decoded JSON value and decoding each element: a list yields
   * its items; an empty string or object yields nothing; a non-empty string
   * or object yields strings, on which `from_dict` fails; anything else is
   * not iterable.
   */
  function DecodeAll(j: Json): (r: Result<seq<Track>>)
    ensures j.JArr? ==> r == DecodeList(j.items)
  {
    match j
    case JArr(xs) => DecodeList(xs)
    case JStr(s) => if s == "" then Ok([]) else Err(TypeError("string indices must be integers"))
    case JObj(m) => if m == map[] then Ok([]) else Err(TypeError("string indices must be integers"))
    case _ => Err(TypeError("object is not iterable"))
  }
}
