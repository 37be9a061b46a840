# yougan: a Dafny model of a Lavalink client

yougan is a Python client for Lavalink audio servers ("nodes"). A client keeps
a pool of named nodes and a registry of per-guild players. Each node has one
websocket control connection, telemetry (`Stats`) and its own player registry.
Players turn commands (play, stop, pause, resume, volume, disconnect) into JSON
frames sent through their node. The connection's listener decodes inbound
`stats`, `event` and `playerUpdate` frames. A node's lookup endpoints turn a
`/loadtracks` reply into a search result, a track or a playlist.

This project models that core in Dafny:

- `py.dfy` (module `Py`) models Python values and exceptions:
  - a `Json` datatype for decoded payloads and an `Error` datatype for the exceptions raised;
  - `payload[key]`, `payload.get(key)`, `int()`, `str()` and truthiness.
- `models.dfy` (`Models`) covers `Track.from_dict`, `thumbnail`, `__eq__`/`__hash__` and playlist length.
- `stats.dfy` (`Telemetry`):
  - the `Stats` object, with `update` as a method that overwrites its fields in place;
  - that method is proved against `Merge`, a function that applies a list of (figure, key path) assignments.
- `frames.dfy` (`Frames`) holds the outbound frames: their JSON encoding and a decoder that inverts it.
- `events.dfy` (`Events`) covers guild-keyed player lookup and `deserialise_track_events`.
- `search.dfy` (`Search`) covers the query prefix and the classification in `search_tracks`, plus `fetch_track`.
- `lavalink.dfy` (`Lavalink`) contains the classes `Connection`, `Node` and `Player`:
  - the websocket is an outbox (`seq<Json>`) of sent frames;
  - the frame-dispatch loop `_listen` is a method over a finite sequence of inbound frames, proved against the function `Run`.
- `client.dfy` (`Pool`) contains the `Client` class. Its insertion-ordered node dictionary is a sequence of (name, node) pairs.

The model follows the code as written, including these behaviours a caller may not expect:

- `get_best_node` considers every node, connected or not, and raises IndexError on an empty pool.
- `add_node` replaces an existing entry in place instead of refusing a duplicate name.
- `Client.disconnect` stops at the first failure instead of collecting them.
- A `playerUpdate` frame for an unregistered guild raises.
- An `event` frame of unknown type ends the listener.
- A `TrackStuckEvent` frame ends the listener with TypeError, because the decoder builds the event with a misspelt keyword (see Findings). The listener uses that decoder as written.
- Every frame other than `playerUpdate` is logged as an unknown op.
- `play` leaves `is_stopped` alone.
- `Player.disconnect` removes the guild only from the node's registry.
- An unknown `loadType` returns None.
- Methods that reach for a name that does not exist raise the exception Python would raise (an AttributeError, NameError or TypeError). This covers `Connection.close` on a live connection, `Client.close` and `Client.disconnect`, `Player.initialize` and `connect_node` twice.

## Model

| member | source | states |
|---|---|---|
| Py.PyInt | yougan/node.py:50 | `int()` of an int is itself, and of a bool is 0 or 1. A string converts exactly when it parses as a signed decimal, to that number; otherwise it raises ValueError. Any other value raises TypeError. |
| Py.PyIntOfIntStr | yougan/connection.py:103 | A guild id sent as its decimal string converts back to the same id: `int(str(g)) == g`. |
| Models.FromDict | yougan/models.py:54-67 | A decoded track's id is the payload's `track`. Reads happen in the source's order. |
| Models.FromDictFields | yougan/models.py:56-66 | Every other attribute is copied from `info`. `ytid` is None (JNull) when `info` has no `identifier`. |
| Models.FromDictNeedsInfo | yougan/models.py:56 | A payload without `info` raises KeyError('info') before anything else is read. |
| Models.FromDictToDict | yougan/models.py:55-67 | Decoding the `{"track", "info"}` payload that describes a track gives that track back. |
| Models.Thumbnail | yougan/models.py:46-52 | There is a thumbnail exactly when `ytid` is truthy. |
| Models.ThumbnailEmbedsId | yougan/models.py:51-52 | The thumbnail URL is the fixed YouTube prefix, then the id, then `/mqdefault.jpg`. |
| Models.ThumbnailInjective | yougan/models.py:51-52 | Tracks with different string ids have different thumbnails. |
| Models.Equals | yougan/models.py:69-72 | Comparing with a non-Track raises TypeError. Two tracks are equal iff their ids are equal. |
| Models.EqualsIsEquivalence | yougan/models.py:69-72 | Track equality is reflexive, symmetric and transitive. |
| Models.EqualTracksHashAlike | yougan/models.py:74-75 | Equal tracks have equal hashes, whatever string hash is used. |
| Models.Hash | yougan/models.py:74-75 | A track's hash is the hash of its id and of nothing else. A list or object id is unhashable and raises TypeError. |
| Models.EqualsIgnoresPlayback | yougan/models.py:72 | A track whose position and length changed still equals the original. |
| Models.DecodeList | yougan/node.py:105 | The list comprehension either decodes every element, in order and with the same length, or raises the first element's error. |
| Models.DecodeAll | yougan/node.py:105 | Iterating a JSON array decodes its items. |
| Search.PlaylistLen | yougan/models.py:98-99 | The length of a loaded playlist is the number of tracks in the reply. |
| Models.Len | yougan/models.py:98-99 | A playlist's length is zero exactly when it has no tracks. |
| Telemetry.Stats.constructor | yougan/stats.py:5-22 | A fresh snapshot has every counter at 0 and the three frame figures at -1. |
| Telemetry.Stats.Update | yougan/stats.py:24-44 | The new fields and the raised exception are exactly `Merge(old snapshot, payload)`. Assignments stop at the first failing read, so earlier writes persist. |
| Telemetry.Stats.UpdateMemory | yougan/stats.py:28-32 | Performs the four `memory` entries of the base plan (positions 2 to 5, counting from 0), or stops where `Merge` stops. |
| Telemetry.Stats.UpdateCpu | yougan/stats.py:34-37 | Performs the three `cpu` entries of the base plan (positions 6 to 8), or stops where `Merge` stops. |
| Telemetry.Stats.UpdateFrames | yougan/stats.py:41-44 | The new fields and the raised exception are exactly the frame plan applied to `frameStats`: `sent`, `deficit`, then `nulled`. |
| Telemetry.MergeIsOverride | yougan/stats.py:24-44 | An update overrides the old snapshot with writes, and raises an exception, that depend on the payload alone. |
| Telemetry.Merge | yougan/stats.py:24-25 | A payload that is not an object raises TypeError on the first read and changes nothing. An object without `playingPlayers` raises KeyError('playingPlayers') and changes nothing. |
| Telemetry.MergeCopiesPayload | yougan/stats.py:25-39 | After a successful update, each base figure is the payload value at its key path: players, memory, cpu and uptime. |
| Telemetry.MergeKeepsFramesWithoutFrameStats | yougan/stats.py:41 | Without a truthy `frameStats`, the three frame figures keep their previous values. |
| Telemetry.MergeTakesFrameStats | yougan/stats.py:41-44 | With a truthy `frameStats`, the frame figures take `sent`, `deficit` and `nulled`. |
| Telemetry.MergeIdempotent | yougan/stats.py:24-44 | Applying the same payload twice gives the same state and exception as applying it once. |
| Telemetry.PlanFacts | yougan/stats.py:25-44 | The base assignments write ten distinct non-frame figures. The frame assignments write only the three frame figures. |
| Frames.Encode | yougan/player.py:129-169 | Every outbound frame is an object with `op` and a `guildId` that is `str(guild)`. |
| Frames.DecodeEncode | yougan/player.py:129-169 | A node reads back exactly the frame that was meant: `Decode(Encode(f)) == f`. |
| Frames.EncodeInjective | yougan/player.py:129-169 | Different frames are sent as different JSON objects. |
| Frames.VoiceEvent | yougan/connection.py:72-76 | The handshake's `event` object has exactly `token`, `guild_id` and `endpoint`. |
| Frames.VoiceUpdateGuildFields | yougan/connection.py:67-78 | The `voiceUpdate` frame has exactly four keys. Both guild fields carry `str(guild)`, which converts back to the guild. |
| Events.Lookup | yougan/node.py:48-52 | `players[int(g)]`, with None for a missing key. A guild that `int()` rejects raises that error. |
| Events.LookupGuildString | yougan/connection.py:103 | Looking up a guild by its decimal string finds the same player as looking it up by id. |
| Events.TypeIs | yougan/connection.py:105 | Raises iff the frame has no `type`; otherwise it is true iff `type` is the given name. |
| Events.Deserialise | yougan/connection.py:102-119 | The corrected decoder. It succeeds only on frames that have `guildId` and `type`. |
| Events.DeserialiseEvent | yougan/connection.py:102-119 | Any frame carrying an event decodes to that event's variant, whatever other keys it has. Carrying an event means a `guildId` that `int()` reads as the guild, the event's `type`, its `track` and its own field (`reason`, `thresholdMs`, `error`). The result holds the guild's player. |
| Events.EventFrameCarries | yougan/connection.py:102-119 | The reference frame for an event carries that event, with the guild sent as its decimal string. |
| Events.DeserialiseEventFrame | yougan/connection.py:102-119 | Each of the four event types decodes to its variant, with `track`, its own field (`reason`, `thresholdMs`, `error`) and the guild's player. |
| Events.DeserialiseUnknownType | yougan/connection.py:105-119 | A frame of any other `type` yields None. |
| Events.DeserialiseAsWritten | yougan/connection.py:111-114 | As written, no frame ever decodes to a stuck event. |
| Events.StuckEventRaises | yougan/connection.py:113 | As written, every well-formed stuck-event frame raises TypeError, although the corrected decoder accepts it. |
| Events.StuckPayloadRaises | yougan/connection.py:103-114 | As written, any frame with a valid guild, `type` TrackStuckEvent, a `track` and a `thresholdMs` raises that TypeError. |
| Events.AsWrittenAgreesElsewhere | yougan/connection.py:102-119 | On every frame that is not a stuck event, the code as written decodes like the corrected decoder. |
| Search.Query | yougan/node.py:88-91 | The identifier is `ytsearch:` + query when `yt`, else `scsearch:` + query when `sc`, else the query itself. |
| Search.QueryKeepsQuery | yougan/node.py:88-93 | The query is always the tail of the identifier, and a prefix adds nine characters. |
| Search.PlaylistOf | yougan/node.py:112-118 | A playlist holds every decoded track of the reply. |
| Search.Respond | yougan/node.py:100-122 | A result is returned only when the reply is an object without a truthy `error`. A search result carries the query sent. |
| Search.Classify | yougan/node.py:101-122 | The classification with the load error the library defines. |
| Search.ClassifyAsWritten | yougan/node.py:102 | As written, it succeeds exactly when the corrected classification does, with the same result. |
| Search.ClassifyReportsErrorFirst | yougan/node.py:101-102 | A truthy `error` raises TrackLoadError("error: message") whatever `loadType` says. |
| Search.ClassifySearchResult | yougan/node.py:104-106 | `SEARCH_RESULT` gives every decoded track, in order, with the query it was given. |
| Search.ClassifyTrackLoaded | yougan/node.py:108-109 | `TRACK_LOADED` gives only the first track of `tracks`. |
| Search.ClassifyPlaylist | yougan/node.py:111-118 | `PLAYLIST_LOADED` gives every track, plus `name` and `selectedTrack` taken from `playlistInfo`. |
| Search.ClassifyLoadFailed | yougan/node.py:120-122 | `LOAD_FAILED` raises TrackLoadError("severity: message"), whatever other keys the reply's `exception` object carries. |
| Search.ClassifyOtherLoadType | yougan/node.py:104-122 | Any other `loadType` falls through every branch and returns None. |
| Search.ReportedErrorAsWritten | yougan/node.py:101-102 | As written, every reply with a truthy `error` raises AttributeError where TrackLoadError was meant, whatever else it holds. |
| Search.ReportedErrorExample | yougan/node.py:101-102 | On `{"error": e, "message": m}` the code as written raises AttributeError, while the corrected classification raises TrackLoadError("e: m"). |
| Search.LoadFailedAsWritten | yougan/node.py:120-122 | As written, a `LOAD_FAILED` reply also raises AttributeError where TrackLoadError was meant. |
| Search.SearchTracks | yougan/node.py:88-122 | `search_tracks` as written: the query gets its provider prefix first. Any result it returns is the corrected classification's, and a search result carries the prefixed query. Wherever the corrected classification raises, it raises too. |
| Search.FetchTrack | yougan/node.py:131-133 | A fetched track has the id that was asked for. |
| Search.FetchTrackInfo | yougan/node.py:124-133 | Given the node's `info` for a track, fetching by its id gives that track. |
| Lavalink.UpdateArgs | yougan/connection.py:96-97 | The player and the `position` and `time` figures of a `playerUpdate` frame. The player is always a registered one. |
| Lavalink.Step | yougan/connection.py:82-100 | A frame that does not stop the loop dispatches at most one event and logs at most one unknown op. It keeps the set of players. Event frames go through the decoder as written. |
| Lavalink.StatsFrameStep | yougan/connection.py:86-87 | A `stats` frame hands the whole frame to the telemetry update, dispatches nothing and is then logged as an unknown op. |
| Lavalink.EventFrameStep | yougan/connection.py:89-93 | An event the decoder, as written, accepts is dispatched once and the loop goes on. An unknown type returns. An event the decoder rejects stops the loop with its exception. The state does not change. |
| Lavalink.EventDispatched | yougan/connection.py:89-93 | An `event` frame carrying a start, end or exception event, with any further keys, is dispatched exactly as carried, with the guild's player, and logged as an op. |
| Lavalink.EventFrameDispatched | yougan/connection.py:89-93 | A start, end or exception event frame sent by the node is dispatched exactly as sent, with the guild's player, and logged as an op. |
| Lavalink.StuckFrameEndsRun | yougan/connection.py:90-113 | As written, a stuck-track event frame ends listening with TypeError. Nothing is dispatched, nothing changes and later frames are never read. |
| Lavalink.PlayerUpdateStep | yougan/connection.py:95-97 | A `playerUpdate` for a registered guild moves only its guild's track, to `state.position` and `state.time`, whatever other keys `state` has. It is not logged. |
| Lavalink.OtherOpStep | yougan/connection.py:99-100 | Any other `op` is logged as unknown. The loop goes on and nothing changes. |
| Lavalink.MissingOpStep | yougan/connection.py:86 | A frame without `op` stops the loop with the lookup's exception. |
| Lavalink.TouchMovesOne | yougan/connection.py:96-97 | Only that player's track changes, and it keeps its id. |
| Lavalink.PlayerUpdateUnknownGuild | yougan/connection.py:96-97 | A `playerUpdate` for an unregistered guild raises AttributeError and stops the loop. |
| Lavalink.RunStopsEarly | yougan/connection.py:80-100 | Frames after the one that stops the loop are never read. |
| Lavalink.Run | yougan/connection.py:80-100 | Listening keeps the set of players. It dispatches at most one event per frame and logs at most one op per frame. |
| Lavalink.RunConcat | yougan/connection.py:80-100 | A loop that handled a whole batch continues with the next batch from where it left off. |
| Lavalink.Connection.constructor | yougan/connection.py:23-39 | A new connection takes its node's session. It is not connected, has no websocket and has sent nothing. |
| Lavalink.Connection.ConnectNode | yougan/connection.py:49-58 | It refuses when already connected. It raises on a missing session or a rejected handshake and then changes nothing. Otherwise it is connected. |
| Lavalink.Connection.Send | yougan/connection.py:121-124 | The payload is appended to the outbox exactly when a websocket is open. |
| Lavalink.Connection.ConnectVoice | yougan/connection.py:62-78 | When not connected it raises and sends nothing. Otherwise it sends exactly the `voiceUpdate` frame. |
| Lavalink.Connection.Close | yougan/connection.py:126-129 | On a connection that is not connected it does nothing, so repeating it is safe. On a live one it raises AttributeError. |
| Lavalink.Connection.Handle | yougan/connection.py:82-100 | One pass of the loop body changes the telemetry and the tracks exactly as `Step` says, with the same events, unknown ops and stop. No player setting other than its track changes. |
| Lavalink.Connection.Listen | yougan/connection.py:80-100 | The final telemetry, tracks, dispatched events, logged ops and outcome are exactly `Run` over the frames. No player setting other than its track changes. |
| Lavalink.Node.constructor | yougan/node.py:23-42 | A new node is not connected, has no connection, has fresh initial telemetry and no players. |
| Lavalink.Node.GetPlayer | yougan/node.py:48-52 | `players[int(g)]`, with None for a missing guild. It raises when `int()` rejects the guild. |
| Lavalink.Node.Send | yougan/node.py:158-161 | A node that is not connected raises without sending. Otherwise the connection sends. |
| Lavalink.Node.ConnectVoice | yougan/node.py:147-156 | A node that is not connected raises without sending. Otherwise the connection sends the handshake. |
| Lavalink.Node.Start | yougan/node.py:135-145 | Stores the given session in place of its own and makes a fresh connection. On success the node is `Started`: marked connected, holding a connection to itself that is open, has its socket and has sent nothing. The node becomes connected only if the connection succeeds. |
| Lavalink.Node.Destroy | yougan/node.py:163-167 | Closes the connection and then marks the node disconnected. A failure in close leaves the flag as it was. |
| Lavalink.Player.constructor | yougan/player.py:38-42 | No current track, alive, stopped, not paused and volume 100. So the player is not playing. |
| Lavalink.Player.IsPlaying | yougan/player.py:98-107 | Playing needs a current track. With one, the player is playing exactly when it is alive: the stopped and paused flags are not consulted. |
| Lavalink.Player.Initialize | yougan/player.py:231-235 | Every call raises: NameError when a node is given, KeyError when none is. |
| Lavalink.Player.Connect | yougan/player.py:112-114 | Sends the voice handshake through the node. The player counts as connected only if that succeeds. The node's connection keeps its socket and connected state. |
| Lavalink.Player.Play | yougan/player.py:126-138 | A non-Track raises TypeError and sends nothing. Otherwise it sends exactly the `play` frame with `noReplace = not replace` and only then makes the track current. `is_stopped` is unchanged. The node's connection keeps its socket and connected state. |
| Lavalink.Player.Stop | yougan/player.py:140-143 | Sends `stop` and then sets `is_stopped`. The current track stays, so `is_playing` is unchanged. A failed send changes nothing. The node's connection keeps its socket and connected state. |
| Lavalink.Player.SetPaused | yougan/player.py:145-159 | `pause`/`resume` send a `pause` frame with true/false and then set `is_paused` to it. `is_playing` is unchanged. A failed send changes nothing. The node's connection keeps its socket and connected state. |
| Lavalink.Player.SetVolume | yougan/player.py:161-169 | Sends the volume as given and stores it with no bounds check. A failed send changes nothing. The node's connection keeps its socket and connected state. |
| Lavalink.Player.Disconnect | yougan/player.py:150-154 | Sends `destroy` and removes the guild from the node's players (KeyError when absent). Then it calls the close hook once. The node's connection keeps its socket and connected state. |
| Lavalink.Player.UpdateState | yougan/player.py:175-179 | Does nothing without a current track. Otherwise it sets only that track's position and length. |
| Pool.FirstMin | yougan/client.py:42 | The first element of a stable sort by load: a minimal load, the earliest among ties. |
| Pool.BestUnique | yougan/client.py:42 | Only one position is the earliest minimal load. |
| Pool.Loads | yougan/client.py:42 | The player count of each node, in pool order. |
| Pool.Find | yougan/client.py:85 | The position of the entry with that name, if any: the first one. |
| Pool.KeyedRemove | yougan/client.py:90 | Deleting an entry keeps names and nodes distinct and leaves no entry of that name. |
| Pool.Client.constructor | yougan/client.py:23-27 | A new client has no nodes, no players and no session. |
| Pool.Client.IsConnected | yougan/client.py:29-35 | True iff some node of the pool is connected. |
| Pool.Client.Close | yougan/client.py:37-39 | Raises AttributeError iff the pool has a node. |
| Pool.Client.BestNode | yougan/client.py:41-42 | IndexError on an empty pool. Otherwise the node at the earliest minimal player count, connected or not. |
| Pool.Client.GetPlayer | yougan/client.py:44-48 | `players[int(g)]`, with None for a missing guild. |
| Pool.Client.Target | yougan/client.py:65-69 | The given node if it is in the pool, else Exception("Unknown Node Provided"). Without a node, the best node. |
| Pool.Client.Connect | yougan/client.py:50-75 | A node outside the pool, an empty pool or a bad guild raises before any registry changes. On success, `int(guild)` maps to the same player in the client's and the chosen node's registries, and no other node changes. |
| Pool.Client.Disconnect | yougan/client.py:77-82 | Any registered player raises AttributeError and changes nothing. Otherwise the nodes are destroyed as `DestroyNodes` states. Every node keeps its session, connection and players. |
| Pool.Client.DestroyNodes | yougan/client.py:81-82 | Nodes are destroyed in order. On success all are disconnected. On the first failure, exactly the earlier nodes are disconnected and the rest keep their connection state. Every node keeps its session, connection and players. |
| Pool.Client.AddNode | yougan/client.py:84-85 | A fresh, unconnected node is stored under the name. An existing entry is replaced in place with the others unchanged; otherwise the node is appended. |
| Pool.Client.RemoveNode | yougan/client.py:87-90 | An unknown name raises KeyError. A connected node is destroyed first, and if that raises the pool stays as it was. On success the entry is gone and the others keep their order. Every other node is untouched. |
| Pool.Client.StartNodes | yougan/client.py:92-97 | Creates the session only if none exists. Nodes start in order with it, and the first rejected handshake raises. Every node before the first rejection holds the shared session and is connected. Each such node has a fresh connection of its own, which is open, has its socket and has sent nothing, so a later send through it succeeds. The rejecting node gets the session and a fresh connection that is not connected and has sent nothing. Its `is_connected` flag keeps its old value, so a node that was connected still reads as connected. Nodes after it are untouched. |
| Pool.Client.StartEach | yougan/client.py:96-97 | The loop stops at position `stop`, the first node that refuses, or at the pool's size when none refuses. Nodes before `stop` are started, the node at `stop` holds a closed fresh connection, and nodes after it are untouched. |

## Findings

| source | as written | input that shows it | evidently intended | confidence | as-written member | corrected member |
|---|---|---|---|---|---|---|
| yougan/node.py:102 | `raise models.TrackLoadError(...)`, but `models` defines no `TrackLoadError` (it lives in `errors`) | `{"error": "x", "message": "y"}`: AttributeError instead of TrackLoadError("x: y"); likewise a `LOAD_FAILED` reply at line 122 | raise the library's TrackLoadError with the node's message | not executed | Search.ClassifyAsWritten, Search.ReportedErrorAsWritten, Search.ReportedErrorExample, Search.LoadFailedAsWritten | Search.Classify |
| yougan/connection.py:113 | the stuck event is built with keyword `thershold`, which its constructor does not accept | any `{"op": "event", "type": "TrackStuckEvent", "guildId": "1", "track": t, "thresholdMs": 5}`: TypeError | build the event with `threshold`, so the frame is dispatched | not executed | Events.DeserialiseAsWritten, Events.StuckEventRaises, Lavalink.StuckFrameEndsRun | Events.Deserialise |

## Left out

- Socket and HTTP I/O are not modelled:
  - the websocket is replaced by the outbox of sent JSON objects;
  - `ws_connect`'s handshake outcome is an `accepted` parameter;
  - an HTTP reply is the decoded payload passed in;
  - `json.dumps`, `resp.json()` and `msg.json()` are not modelled, and the HTTP session is an integer handle.
- Concurrency is not modelled:
  - the listener task that `connect_node` spawns is absent;
  - commands cannot interleave with the listener;
  - `_listen` runs over a finite list of frames, and the outcome `Exhausted` stands for "no further frame yet".
- Lavalink.Connection.Listen: frames are handed to `Listen` directly, and `Handle` is not invoked from `ConnectNode`.
- hikari integration is not modelled:
  - `app.voice.connect_to` is the `made` argument of `Client.connect`;
  - `app.dispatch` is the `events` output;
  - the `headers` properties, `notify`, `join` and the read-only properties are absent.
- Pool.Client.Connect: the `issubclass(cls, Player)` check (yougan/client.py:62-63) is absent, because player classes are not represented.
- `Client.search_track` and `Client.fetch_track` are not modelled. They only ask `BestNode` for a node and call `Search.SearchTracks` (the classification as written) or `Search.FetchTrack` on its reply.
- Pool.Client.Connect: with the default `cls=Player`, the voice component initialises the player through `Player.initialize`. `Lavalink.Player.Initialize` shows that always raises. So `Connect` succeeds only with a caller-supplied player class, whose initialisation the `made` argument stands for.
- Models.Equals: ids are compared as JSON values. Python's `==` also equates `1` with `True` (and containers holding them), which this comparison does not. Lavalink track ids are strings, where the two agree.
- Lavalink.Player.UpdateState: a track is a value. In Python the `Track` object is shared, so moving it also changes every other holder of the same object. Here only the player's current track changes.
- Lavalink.Player.Disconnect: the close hook's own effects are not modelled. Its call is the `closed` result.
- Lavalink.Player.Play: the TypeError message omits the argument's type.
- Models.Equals: the TypeError message omits the operand's repr.
- Models.Hash: the process's hash function is a parameter.
- Py.PyInt: only an optional sign followed by ASCII digits parses. Surrounding whitespace, underscores, non-ASCII digits and `int()` of a float are not modelled.
- Py.Str: containers print as `[...]`/`{...}` rather than their full repr.
- Floating-point telemetry values are never computed with; they are carried as opaque JSON values, and numbers are modelled as integers.
- Logging calls are not modelled.
- `events.py` and `errors.py` are plain data classes. They appear as the `TrackEvent` and `Error` datatypes.
