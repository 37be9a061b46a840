/**
 * The stateful objects of the client: a node's control connection, the node
 * itself and the per-guild players. The websocket is replaced by an outbox of
 * the JSON objects sent over it, the HTTP session by an identifier, and the
 * server's answer to the websocket handshake by a parameter.
 */
module Lavalink {
  import opened Py
  import opened Models
  import opened Telemetry
  import opened Frames
  import opened Events

  /** How the frame-dispatch loop ended. */
  datatype Outcome =
    | Exhausted          // every inbound frame was handled
    | Returned           // an `event` frame of unknown type made the loop return
    | Raised(error: Error)

  /** The state the dispatch loop changes: the node's telemetry and each player's track. */
  datatype World = World(snap: Snapshot, tracks: map<Player, Option<Track>>)

  /** What handling one frame did: the new state, events dispatched, ops logged as unknown, and whether the loop stops. */
  datatype Effect = Effect(world: World, events: seq<TrackEvent<Player>>, unknown: seq<Json>, stop: Option<Outcome>)

  /** What handling a run of frames did. */
  datatype Trace = Trace(world: World, events: seq<TrackEvent<Player>>, unknown: seq<Json>, outcome: Outcome)

  /** The current track of every registered player. */
  function TracksOf(players: map<int, Player>): (r: map<Player, Option<Track>>)
    reads players.Values
    ensures r.Keys == players.Values
  {
    map p | p in players.Values :: p.currentTrack
  }

  /** `_update_state` applied to one player's track, if it has one. */
  function Touch(tracks: map<Player, Option<Track>>, p: Player, position: Json, length: Json): map<Player, Option<Track>> {
    if p in tracks && tracks[p].Some? then tracks[p := Some(tracks[p].value.(position := position, length := length))]
    else tracks
  }

  /**
   * The player and the two figures of a `playerUpdate` frame. The player's
   * method is looked up before the arguments are read, so a guild without a
   * player fails with AttributeError whatever the frame's `state` holds.
   */
  function UpdateArgs(players: map<int, Player>, msg: Json): (r: Result<(Player, Json, Json)>)
    ensures r.Ok? ==> r.value.0 in players.Values
  {
    var guild :- Index(msg, "guildId");
    var found :- Lookup(players, guild);
    if found.None? then Err(AttributeError("_update_state"))
    else
      var state :- Index(msg, "state");
      var position :- Index(state, "position");
      var time :- Index(state, "time");
      Ok((found.value, position, time))
  }

  /**
   * One pass of `Connection._listen`. The three `op` tests are independent
   * and only the last has an `else`, so `stats` and `event` frames are also
   * logged as unknown ops.
   */
  function Step(w: World, players: map<int, Player>, msg: Json): (e: Effect)
    ensures e.stop.None? ==> |e.events| <= 1 && |e.unknown| <= 1
    ensures e.world.tracks.Keys == w.tracks.Keys
  {
    match Index(msg, "op")
    case Err(error) => Effect(w, [], [], Some(Raised(error)))
    case Ok(op) =>
      if op == JStr("stats") then
        var m := Merge(w.snap, msg);
        if m.failure.Some? then Effect(w.(snap := m.state), [], [], Some(Raised(m.failure.value)))
        else Effect(w.(snap := m.state), [], [op], None)
      else if op == JStr("event") then
        match DeserialiseAsWritten(msg, players)
        case Err(error) => Effect(w, [], [], Some(Raised(error)))
        case Ok(None) => Effect(w, [], [], Some(Returned))
        case Ok(Some(event)) => Effect(w, [event], [op], None)
      else if op == JStr("playerUpdate") then
        match UpdateArgs(players, msg)
        case Err(error) => Effect(w, [], [], Some(Raised(error)))
        case Ok((p, position, time)) => Effect(w.(tracks := Touch(w.tracks, p, position, time)), [], [], None)
      else Effect(w, [], [op], None)
  }

  /** `Connection._listen` over the inbound `frames`, stopping at the first frame that stops it. */
  function Run(w: World, players: map<int, Player>, frames: seq<Json>): (t: Trace)
    ensures t.world.tracks.Keys == w.tracks.Keys
    ensures |t.events| <= |frames| && |t.unknown| <= |frames|
    decreases |frames|
  {
    if frames == [] then Trace(w, [], [], Exhausted)
    else
      var e := Step(w, players, frames[0]);
      if e.stop.Some? then Trace(e.world, e.events, e.unknown, e.stop.value)
      else Then(e, Run(e.world, players, frames[1..]))
  }

  /** A `stats` frame hands the whole frame to the telemetry overwrite, then reaches the warning. */
  lemma StatsFrameStep(w: World, players: map<int, Player>, msg: Json)
    requires Index(msg, "op") == Ok(JStr("stats"))
    ensures var e := Step(w, players, msg); var m := Merge(w.snap, msg);
      e.world == w.(snap := m.state) && e.events == [] &&
      (m.failure.None? ==> e.stop.None? && e.unknown == [JStr("stats")]) &&
      (m.failure.Some? ==> e.stop == Some(Raised(m.failure.value)))
  {
  }

  /**
   * An `event` frame the decoder accepts is dispatched once and the loop goes
   * on; one of unknown type makes the loop return; one the decoder rejects
   * stops the loop with its exception. None of them touches the state.
   */
  lemma EventFrameStep(w: World, players: map<int, Player>, msg: Json)
    requires Index(msg, "op") == Ok(JStr("event"))
    ensures var e := Step(w, players, msg); var d := DeserialiseAsWritten(msg, players);
      e.world == w &&
      (d.Ok? && d.value.Some? ==> e.events == [d.value.value] && e.stop.None? && e.unknown == [JStr("event")]) &&
      (d.Ok? && d.value.None? ==> e.events == [] && e.stop == Some(Returned)) &&
      (d.Err? ==> e.events == [] && e.stop == Some(Raised(d.error)))
  {
    assert "stats"[0] != "event"[0];
  }

  /**
   * An `event` frame carrying a start, end or exception event, whatever other
   * keys it has, is dispatched with the guild's player.
   */
  lemma EventDispatched(w: World, players: map<int, Player>, msg: Json, guild: int, e: TrackEvent<Player>)
    requires Index(msg, "op") == Ok(JStr("event")) && Carries(msg, guild, e) && !e.TrackStuck?
    requires e.player == (if guild in players then Some(players[guild]) else None)
    ensures Step(w, players, msg) == Effect(w, [e], [JStr("event")], None)
  {
    DeserialiseEvent(msg, players, guild, e);
    NotStuck(msg, guild, e);
    AsWrittenAgreesElsewhere(msg, players);
    assert DeserialiseAsWritten(msg, players) == Ok(Some(e));
    EventFrameStep(w, players, msg);
  }

  /** A start, end or exception event sent by the node is dispatched with the guild's player. */
  lemma EventFrameDispatched(w: World, players: map<int, Player>, guild: int, e: TrackEvent<Player>)
    requires !e.TrackStuck?
    requires e.player == (if guild in players then Some(players[guild]) else None)
    ensures Step(w, players, EventFrame(guild, e)) == Effect(w, [e], [JStr("event")], None)
  {
    EventFrameCarries(guild, e);
    EventDispatched(w, players, EventFrame(guild, e), guild, e);
  }

  lemma NotStuck(msg: Json, guild: int, e: TrackEvent<Player>)
    requires Carries(msg, guild, e) && !e.TrackStuck?
    ensures TypeIs(msg, "TrackStuckEvent") == Ok(false)
  {
    match e
    case TrackStart(_, _) => assert "TrackStartEvent"[7] != "TrackStuckEvent"[7];
    case TrackEnd(_, _, _) => assert "TrackEndEvent"[6] != "TrackStuckEvent"[6];
    case TrackException(_, _, _) => assert "TrackExceptionEvent"[5] != "TrackStuckEvent"[5];
  }

  /**
   * As written, a stuck-track event sent by the node raises TypeError inside
   * the loop: listening ends there, nothing is dispatched and later frames
   * are never read.
   */
  lemma StuckFrameEndsRun(w: World, players: map<int, Player>, guild: int, track: Json, threshold: Json, more: seq<Json>)
    ensures var t := Run(w, players, [EventFrame<Player>(guild, TrackStuck(track, threshold, None))] + more);
      t.world == w && t.events == [] && t.unknown == [] &&
      t.outcome.Raised? && t.outcome.error.TypeError?
  {
    var frame := EventFrame<Player>(guild, TrackStuck(track, threshold, None));
    StuckAsWritten(players, guild, track, threshold);
    var d := DeserialiseAsWritten(frame, players);
    EventFrameStep(w, players, frame);
    assert Step(w, players, frame) == Effect(w, [], [], Some(Raised(d.error)));
    assert ([frame] + more)[0] == frame;
  }

  /**
   * A `playerUpdate` frame for a registered guild applies `_update_state` to
   * that guild's player with the frame's `state.position` and `state.time`.
   */
  lemma PlayerUpdateStep(w: World, players: map<int, Player>, msg: Json, guild: int, position: Json, time: Json)
    requires Index(msg, "op") == Ok(JStr("playerUpdate")) && Index(msg, "guildId") == Ok(JStr(IntStr(guild)))
    requires Index(msg, "state").Ok?
    requires Index(msg.fields["state"], "position") == Ok(position) && Index(msg.fields["state"], "time") == Ok(time)
    requires guild in players
    ensures Step(w, players, msg) == Effect(w.(tracks := Touch(w.tracks, players[guild], position, time)), [], [], None)
  {
    PyIntOfIntStr(guild);
    assert "stats"[0] != "playerUpdate"[0] && "event"[0] != "playerUpdate"[0];
    assert UpdateArgs(players, msg) == Ok((players[guild], position, time));
  }

  /** Any other `op` is logged as unknown and the loop goes on, with nothing changed. */
  lemma OtherOpStep(w: World, players: map<int, Player>, msg: Json)
    requires Index(msg, "op").Ok?
    requires Index(msg, "op").value !in {JStr("stats"), JStr("event"), JStr("playerUpdate")}
    ensures Step(w, players, msg) == Effect(w, [], [msg.fields["op"]], None)
  {
  }

  /** A frame without `op` (or one that is not an object) stops the loop with the lookup's exception. */
  lemma MissingOpStep(w: World, players: map<int, Player>, msg: Json)
    requires Index(msg, "op").Err?
    ensures Step(w, players, msg) == Effect(w, [], [], Some(Raised(Index(msg, "op").error)))
  {
  }

  /** `_update_state` on one player moves only that player's track, and keeps its identity. */
  lemma TouchMovesOne(tracks: map<Player, Option<Track>>, p: Player, position: Json, length: Json)
    ensures var r := Touch(tracks, p, position, length);
      r.Keys == tracks.Keys &&
      (forall q :: q in tracks && q != p ==> r[q] == tracks[q]) &&
      (p in tracks && tracks[p].Some? ==>
        r[p].Some? && r[p].value.position == position && r[p].value.length == length &&
        Equals(r[p].value, TrackValue(tracks[p].value)) == Ok(true)) &&
      (p in tracks && tracks[p].None? ==> r[p].None?)
  {
    if p in tracks && tracks[p].Some? {
      var t := tracks[p].value;
      EqualsIgnoresPlayback(t, position, length);
      EqualsIsEquivalence(t, t.(position := position, length := length), t);
    }
  }

  /** A `playerUpdate` frame for a guild without a player stops the loop with AttributeError. */
  lemma PlayerUpdateUnknownGuild(w: World, players: map<int, Player>, msg: Json, guild: int)
    requires msg.JObj? && msg.fields.Keys >= {"op", "guildId"}
    requires msg.fields["op"] == JStr("playerUpdate") && msg.fields["guildId"] == JStr(IntStr(guild))
    requires guild !in players
    ensures Step(w, players, msg) == Effect(w, [], [], Some(Raised(AttributeError("_update_state"))))
  {
    PyIntOfIntStr(guild);
    assert "stats"[0] != "playerUpdate"[0] && "event"[0] != "playerUpdate"[0];
  }

  /** Frames after the one that stops the loop are never read. */
  lemma {:induction false} RunStopsEarly(w: World, players: map<int, Player>, frames: seq<Json>, more: seq<Json>)
    requires Run(w, players, frames).outcome != Exhausted
    ensures Run(w, players, frames + more) == Run(w, players, frames)
    decreases |frames|
  {
    assert (frames + more)[0] == frames[0] && (frames + more)[1..] == frames[1..] + more;
    var e := Step(w, players, frames[0]);
    if e.stop.None? {
      RunStopsEarly(e.world, players, frames[1..], more);
    }
  }

  /** A run that handled every frame goes on with the next batch where it left off. */
  lemma {:induction false} RunConcat(w: World, players: map<int, Player>, frames: seq<Json>, more: seq<Json>)
    requires Run(w, players, frames).outcome == Exhausted
    ensures var first := Run(w, players, frames);
      Run(w, players, frames + more) == Resume(Run(first.world, players, more), first.events, first.unknown)
    decreases |frames|
  {
    if frames == [] {
      assert frames + more == more;
    } else {
      assert (frames + more)[0] == frames[0] && (frames + more)[1..] == frames[1..] + more;
      var e := Step(w, players, frames[0]);
      RunConcat(e.world, players, frames[1..], more);
      var rest := Run(e.world, players, frames[1..]);
      var tail := Run(rest.world, players, more);
      Regroup(e.events, rest.events, tail.events);
      Regroup(e.unknown, rest.unknown, tail.unknown);
    }
  }

  /** The trace of a step that did not stop, followed by the rest of the run. */
  function Then(e: Effect, rest: Trace): Trace {
    Trace(rest.world, e.events + rest.events, e.unknown + rest.unknown, rest.outcome)
  }

  /** A run's trace after `events` and `unknown` were already produced by earlier frames. */
  function Resume(t: Trace, events: seq<TrackEvent<Player>>, unknown: seq<Json>): Trace {
    Trace(t.world, events + t.events, unknown + t.unknown, t.outcome)
  }

  /** Handling frame `k` either ends the run with that frame's effect or hands over to frame `k + 1`. */
  lemma RunStep(whole: Trace, w: World, players: map<int, Player>, frames: seq<Json>, k: nat,
                events: seq<TrackEvent<Player>>, unknown: seq<Json>)
    requires k < |frames| && whole == Resume(Run(w, players, frames[k..]), events, unknown)
    ensures var e := Step(w, players, frames[k]);
      if e.stop.Some? then whole == Trace(e.world, events + e.events, unknown + e.unknown, e.stop.value)
      else whole == Resume(Run(e.world, players, frames[k + 1..]), events + e.events, unknown + e.unknown)
  {
    assert frames[k..][0] == frames[k] && frames[k..][1..] == frames[k + 1..];
    var e := Step(w, players, frames[k]);
    if e.stop.None? {
      var rest := Run(e.world, players, frames[k + 1..]);
      Regroup(events, e.events, rest.events);
      Regroup(unknown, e.unknown, rest.unknown);
    }
  }

  /** Every setting of the players other than their current track is as it was. */
  twostate predicate FlagsKept(players: set<Player>)
    reads players
  {
    forall p :: p in players ==> p.Settings() == old(p.Settings())
  }

  lemma Regroup<T>(a: seq<T>, b: seq<T>, c: seq<T>)
    ensures a + (b + c) == (a + b) + c
  {
  }

  /** The websocket connection of a node. */
  class Connection {
    const node: Node
    const session: Option<int>   // the node's HTTP session when the connection was made
    var socket: bool             // a websocket has been opened (`_conn` is set)
    var isConnected: bool
    var outbox: seq<Json>        // every frame sent over the websocket, oldest first

    constructor(node: Node)
      ensures this.node == node && session == node.session
      ensures !socket && !isConnected && outbox == []
    {
      this.node := node;
      session := node.session;
      socket := false;
      isConnected := false;
      outbox := [];
    }

    /** Why `connect_node` would fail now, if it would. */
    function ConnectFailure(accepted: bool): Option<Error>
      reads this
    {
      if isConnected then Some(AttributeError("NodeAlreadyConnect"))
      else if session.None? then Some(AttributeError("ws_connect"))
      else if !accepted then Some(AuthenticationError("Node::" + node.name + " Authentication Failed!"))
      else None
    }

    /**
     * `Connection.connect_node`: refuses a connection that is already up,
     * opens the websocket and marks the connection up. The exception it means
     * to raise when already connected is not defined, so the lookup of its
     * name fails instead.
     */
    method ConnectNode(accepted: bool) returns (failure: Option<Error>)
      modifies this
      ensures failure == old(ConnectFailure(accepted))
      ensures old(isConnected) ==> failure.Some?
      ensures failure.Some? ==> unchanged(this)
      ensures failure.None? ==> isConnected && socket && outbox == old(outbox)
    {
      if isConnected {
        return Some(AttributeError("NodeAlreadyConnect"));
      }
      if session.None? {
        return Some(AttributeError("ws_connect"));
      }
      if !accepted {
        return Some(AuthenticationError("Node::" + node.name + " Authentication Failed!"));
      }
      socket := true;
      isConnected := true;
      return None;
    }

    /** `Connection.send`: the frame goes out over the websocket, which must have been opened. */
    method Send(payload: Json) returns (failure: Option<Error>)
      modifies this
      ensures failure == (if socket then None else Some(AttributeError("send_str")))
      ensures outbox == old(outbox) + (if failure.None? then [payload] else [])
      ensures socket == old(socket) && isConnected == old(isConnected)
    {
      if !socket {
        return Some(AttributeError("send_str"));
      }
      outbox := outbox + [payload];
      return None;
    }

    /** Why `connect_vc` would fail now, if it would. */
    function VoiceFailure(): Option<Error>
      reads this
    {
      if !isConnected then Some(Exception("Node::" + node.name + " is not connected!!"))
      else if !socket then Some(AttributeError("send_str"))
      else None
    }

    /** `Connection.connect_vc`: sends the `voiceUpdate` handshake, only when connected. */
    method ConnectVoice(sessionId: string, guild: int, token: string, endpoint: string) returns (failure: Option<Error>)
      modifies this
      ensures failure == old(VoiceFailure())
      ensures !old(isConnected) ==> outbox == old(outbox)
      ensures outbox == old(outbox) + (if failure.None? then [Encode(VoiceUpdate(sessionId, guild, token, endpoint))] else [])
      ensures socket == old(socket) && isConnected == old(isConnected)
    {
      if !isConnected {
        return Some(Exception("Node::" + node.name + " is not connected!!"));
      }
      failure := Send(Encode(VoiceUpdate(sessionId, guild, token, endpoint)));
    }

    /**
     * `Connection.close`: nothing to do when not connected; otherwise it uses
     * a `websocket` attribute the connection never has.
     */
    method Close() returns (failure: Option<Error>)
      ensures failure == (if isConnected then Some(AttributeError("websocket")) else None)
    {
      if !isConnected {
        return None;
      }
      return Some(AttributeError("websocket"));
    }

    /** One pass of `_listen`'s loop body over an inbound frame. */
    method Handle(msg: Json) returns (events: seq<TrackEvent<Player>>, unknown: seq<Json>, stop: Option<Outcome>)
      modifies node.stats, node.players.Values
      ensures Step(World(old(node.stats.Snap()), old(TracksOf(node.players))), node.players, msg)
        == Effect(World(node.stats.Snap(), TracksOf(node.players)), events, unknown, stop)
      ensures FlagsKept(node.players.Values)
    {
      events, unknown, stop := [], [], None;
      var op := Index(msg, "op");
      if op.Err? {
        return [], [], Some(Raised(op.error));
      }
      assert "stats"[0] != "event"[0] && "stats"[0] != "playerUpdate"[0] && "event"[0] != "playerUpdate"[0];
      if op.value == JStr("stats") {
        var failure := node.stats.Update(msg);
        if failure.Some? {
          return [], [], Some(Raised(failure.value));
        }
      }
      if op.value == JStr("event") {
        var event := DeserialiseAsWritten(msg, node.players);
        if event.Err? {
          return [], [], Some(Raised(event.error));
        }
        if event.value.None? {
          return [], [], Some(Returned);
        }
        events := [event.value.value];
      }
      if op.value == JStr("playerUpdate") {
        var args := UpdateArgs(node.players, msg);
        if args.Err? {
          return [], [], Some(Raised(args.error));
        }
        var player := args.value.0;
        ghost var before := TracksOf(node.players);
        player.UpdateState(args.value.1, args.value.2);
        assert TracksOf(node.players) == Touch(before, player, args.value.1, args.value.2);
      } else {
        unknown := [op.value];
      }
    }

    /**
     * `Connection._listen` over a finite run of inbound frames: stats frames
     * overwrite the node's telemetry, event frames are dispatched to the sink
     * (the returned `events`), player updates move a player's track.
     */
    method Listen(frames: seq<Json>) returns (events: seq<TrackEvent<Player>>, unknown: seq<Json>, outcome: Outcome)
      modifies node.stats, node.players.Values
      ensures Trace(World(node.stats.Snap(), TracksOf(node.players)), events, unknown, outcome)
        == Run(World(old(node.stats.Snap()), old(TracksOf(node.players))), node.players, frames)
      ensures FlagsKept(node.players.Values)
    {
      ghost var start := World(node.stats.Snap(), TracksOf(node.players));
      ghost var whole := Run(start, node.players, frames);
      assert frames[0..] == frames;
      events, unknown := [], [];
      var k := 0;
      while k < |frames|
        invariant 0 <= k <= |frames|
        invariant whole == Resume(Run(World(node.stats.Snap(), TracksOf(node.players)), node.players, frames[k..]), events, unknown)
        invariant FlagsKept(node.players.Values)
        decreases |frames| - k
      {
        ghost var now := World(node.stats.Snap(), TracksOf(node.players));
        var dispatched, logged, stop := Handle(frames[k]);
        RunStep(whole, now, node.players, frames, k, events, unknown);
        events := events + dispatched;
        unknown := unknown + logged;
        if stop.Some? {
          return events, unknown, stop.value;
        }
        k := k + 1;
      }
      outcome := Exhausted;
    }
  }

  /** A Lavalink server the client talks to. */
  class Node {
    const name: string
    const host: string
    const port: int
    const password: string
    const stats: Stats
    var session: Option<int>
    var connection: Connection?
    var isConnected: bool
    var players: map<int, Player>

    /** `Node.__init__`: not connected, no connection yet, fresh telemetry, no players. */
    constructor(name: string, host: string, port: int, password: string, session: Option<int>)
      ensures this.name == name && this.host == host && this.port == port && this.password == password
      ensures this.session == session && connection == null && !isConnected && players == map[]
      ensures fresh(stats) && stats.Snap() == Initial
    {
      this.name := name;
      this.host := host;
      this.port := port;
      this.password := password;
      this.session := session;
      stats := new Stats();
      connection := null;
      isConnected := false;
      players := map[];
    }

    /** `Node.get_player` */
    function GetPlayer(guild: Json): (r: Result<Option<Player>>)
      reads this
      ensures r.Ok? <==> PyInt(guild).Ok?
      ensures r.Ok? ==> r.value == (if PyInt(guild).value in players then Some(players[PyInt(guild).value]) else None)
    {
      Lookup(players, guild)
    }

    /** Why `_send` would fail now, if it would. */
    function SendFailure(): Option<Error>
      reads this, connection
    {
      if !isConnected then Some(Exception("Node is not connected yet!"))
      else if connection == null then Some(AttributeError("send"))
      else if !connection.socket then Some(AttributeError("send_str"))
      else None
    }

    /** `Node._send`: refuses to send while the node is not connected. */
    method Send(payload: Json) returns (failure: Option<Error>)
      modifies connection
      ensures failure == old(SendFailure())
      ensures !isConnected ==> failure.Some?
      ensures connection != null ==> connection.outbox == old(connection.outbox) + (if failure.None? then [payload] else [])
      ensures connection != null ==> connection.socket == old(connection.socket) && connection.isConnected == old(connection.isConnected)
    {
      if !isConnected {
        return Some(Exception("Node is not connected yet!"));
      }
      if connection == null {
        return Some(AttributeError("send"));
      }
      failure := connection.Send(payload);
    }

    /** Why `connect_vc` would fail now, if it would. */
    function VoiceFailure(): Option<Error>
      reads this, connection
    {
      if !isConnected then Some(Exception("Node is not connected yet!"))
      else if connection == null then Some(AttributeError("connect_vc"))
      else connection.VoiceFailure()
    }

    /** `Node.connect_vc`: refuses while not connected, else the connection sends the handshake. */
    method ConnectVoice(guild: int, sessionId: string, token: string, endpoint: string) returns (failure: Option<Error>)
      modifies connection
      ensures failure == old(VoiceFailure())
      ensures !isConnected ==> failure.Some?
      ensures connection != null ==> (connection.outbox == old(connection.outbox) +
        (if failure.None? then [Encode(VoiceUpdate(sessionId, guild, token, endpoint))] else []))
      ensures connection != null ==> connection.socket == old(connection.socket) && connection.isConnected == old(connection.isConnected)
    {
      if !isConnected {
        return Some(Exception("Node is not connected yet!"));
      }
      if connection == null {
        return Some(AttributeError("connect_vc"));
      }
      failure := connection.ConnectVoice(sessionId, guild, token, endpoint);
    }

    /**
     * The state a successful `start` with `session` leaves: the node is marked
     * connected and holds its own connection, open and with nothing sent yet.
     */
    predicate Started(session: Option<int>)
      reads this, connection
    {
      isConnected && this.session == session && connection != null && connection.node == this &&
      connection.isConnected && connection.socket && connection.outbox == []
    }

    /**
     * `Node.start`: stores the given session in place of its own, makes a new
     * connection and connects it; the node counts as connected only once the
     * connection succeeded.
     */
    method Start(session: Option<int>, accepted: bool) returns (failure: Option<Error>)
      modifies this
      ensures failure.None? ==> Started(session)
      ensures this.session == session && connection != null && fresh(connection)
      ensures connection.node == this && connection.session == session && connection.outbox == []
      ensures failure == (if session.None? then Some(AttributeError("ws_connect"))
        else if !accepted then Some(AuthenticationError("Node::" + name + " Authentication Failed!"))
        else None)
      ensures connection.isConnected == failure.None? && connection.socket == failure.None?
      ensures isConnected == (old(isConnected) || failure.None?)
      ensures players == old(players)
    {
      this.session := session;
      connection := new Connection(this);
      failure := connection.ConnectNode(accepted);
      if failure.None? {
        isConnected := true;
      }
    }

    /** Why `destroy` would fail now, if it would. */
    function DestroyFailure(): Option<Error>
      reads this, connection
    {
      if connection == null then Some(AttributeError("close"))
      else if connection.isConnected then Some(AttributeError("websocket"))
      else None
    }

    /** `Node.destroy`: closes the connection, then marks the node disconnected. */
    method Destroy() returns (failure: Option<Error>)
      modifies this
      ensures failure == old(DestroyFailure())
      ensures isConnected == (old(isConnected) && failure.Some?)
      ensures connection == old(connection) && session == old(session) && players == old(players)
    {
      if connection == null {
        return Some(AttributeError("close"));
      }
      failure := connection.Close();
      if failure.None? {
        isConnected := false;
      }
    }
  }

  /** The voice connection of one guild, driven through its node. */
  class Player {
    const node: Node
    const guild: int
    const sessionId: string
    const token: string
    const endpoint: string
    var currentTrack: Option<Track>
    var isAlive: bool
    var isStopped: bool
    var isPaused: bool
    var volume: int
    var isConnected: bool   // set by `_connect`; the dataclass declares no such field

    /** The dataclass defaults: no track, alive, stopped, not paused, volume 100. */
    constructor(node: Node, guild: int, sessionId: string, token: string, endpoint: string)
      ensures this.node == node && this.guild == guild
      ensures this.sessionId == sessionId && this.token == token && this.endpoint == endpoint
      ensures currentTrack == None && isAlive && isStopped && !isPaused && volume == 100 && !isConnected
      ensures !IsPlaying()
    {
      this.node := node;
      this.guild := guild;
      this.sessionId := sessionId;
      this.token := token;
      this.endpoint := endpoint;
      currentTrack := None;
      isAlive := true;
      isStopped := true;
      isPaused := false;
      volume := 100;
      isConnected := false;
    }

    /** Everything about the player but its track: alive, stopped, paused, volume, connected. */
    function Settings(): (bool, bool, bool, int, bool)
      reads this
    {
      (isAlive, isStopped, isPaused, volume, isConnected)
    }

    /** `Player.is_playing` */
    predicate IsPlaying()
      reads this
      ensures IsPlaying() ==> currentTrack.Some?
      ensures currentTrack.Some? ==> (IsPlaying() <==> isAlive)
    {
      isAlive && currentTrack.Some?
    }

    /** `Player.initialize`: every call raises; `Node` is not bound when the check runs. */
    static method Initialize(node: Node?) returns (r: Result<Player>)
      ensures r.Err?
      ensures node != null ==> r.error == NameError("Node")
      ensures node == null ==> r.error == KeyError(JStr("Missing node parameter"))
    {
      if node != null {
        return Err(NameError("Node"));
      }
      return Err(KeyError(JStr("Missing node parameter")));
    }

    /** `Player._connect`: the node sends the voice handshake, then the player counts as connected. */
    method Connect() returns (failure: Option<Error>)
      modifies this, node.connection
      ensures failure == old(node.VoiceFailure())
      ensures node.connection != null ==>
        node.connection.socket == old(node.connection.socket) && node.connection.isConnected == old(node.connection.isConnected)
      ensures node.connection != null ==> (node.connection.outbox == old(node.connection.outbox) +
        (if failure.None? then [Encode(VoiceUpdate(sessionId, guild, token, endpoint))] else []))
      ensures isConnected == (old(isConnected) || failure.None?)
      ensures currentTrack == old(currentTrack) && isAlive == old(isAlive) && isStopped == old(isStopped)
      ensures isPaused == old(isPaused) && volume == old(volume)
    {
      failure := node.ConnectVoice(guild, sessionId, token, endpoint);
      if failure.None? {
        isConnected := true;
      }
    }

    /**
     * `Player.play`: refuses anything but a track, sends `play` and only then
     * makes the track current; `is_stopped` is not touched.
     */
    method Play(track: Value, replace: bool) returns (failure: Option<Error>)
      modifies this, node.connection
      ensures track.OtherValue? ==> failure == Some(TypeError("Expected arg track to be a subclass of 'Track'"))
      ensures track.TrackValue? ==> failure == old(node.SendFailure())
      ensures node.connection != null ==>
        node.connection.socket == old(node.connection.socket) && node.connection.isConnected == old(node.connection.isConnected)
      ensures node.connection != null ==> (node.connection.outbox == old(node.connection.outbox) +
        (if failure.None? then [Encode(OutFrame.Play(guild, track.track.id, !replace))] else []))
      ensures currentTrack == (if failure.None? then Some(track.track) else old(currentTrack))
      ensures failure.None? ==> IsPlaying() == isAlive
      ensures isAlive == old(isAlive) && isStopped == old(isStopped) && isPaused == old(isPaused)
      ensures volume == old(volume) && isConnected == old(isConnected)
    {
      if !track.TrackValue? {
        return Some(TypeError("Expected arg track to be a subclass of 'Track'"));
      }
      failure := node.Send(Encode(OutFrame.Play(guild, track.track.id, !replace)));
      if failure.None? {
        currentTrack := Some(track.track);
      }
    }

    /** `Player.stop`: sends `stop`, then marks the player stopped; the current track stays. */
    method Stop() returns (failure: Option<Error>)
      modifies this, node.connection
      ensures failure == old(node.SendFailure())
      ensures node.connection != null ==>
        node.connection.socket == old(node.connection.socket) && node.connection.isConnected == old(node.connection.isConnected)
      ensures node.connection != null ==> (node.connection.outbox == old(node.connection.outbox) +
        (if failure.None? then [Encode(OutFrame.Stop(guild))] else []))
      ensures isStopped == (old(isStopped) || failure.None?)
      ensures IsPlaying() == old(IsPlaying())
      ensures currentTrack == old(currentTrack) && isAlive == old(isAlive) && isPaused == old(isPaused)
      ensures volume == old(volume) && isConnected == old(isConnected)
    {
      failure := node.Send(Encode(OutFrame.Stop(guild)));
      if failure.None? {
        isStopped := true;
      }
    }

    /** `Player.pause` (`paused` true) and `Player.resume` (`paused` false). */
    method SetPaused(paused: bool) returns (failure: Option<Error>)
      modifies this, node.connection
      ensures failure == old(node.SendFailure())
      ensures node.connection != null ==>
        node.connection.socket == old(node.connection.socket) && node.connection.isConnected == old(node.connection.isConnected)
      ensures node.connection != null ==> (node.connection.outbox == old(node.connection.outbox) +
        (if failure.None? then [Encode(Pause(guild, paused))] else []))
      ensures isPaused == (if failure.None? then paused else old(isPaused))
      ensures IsPlaying() == old(IsPlaying())
      ensures currentTrack == old(currentTrack) && isAlive == old(isAlive) && isStopped == old(isStopped)
      ensures volume == old(volume) && isConnected == old(isConnected)
    {
      failure := node.Send(Encode(Pause(guild, paused)));
      if failure.None? {
        isPaused := paused;
      }
    }

    /** `Player.set_volume`: sends the volume as given and stores it; no range is enforced. */
    method SetVolume(v: int) returns (failure: Option<Error>)
      modifies this, node.connection
      ensures failure == old(node.SendFailure())
      ensures node.connection != null ==>
        node.connection.socket == old(node.connection.socket) && node.connection.isConnected == old(node.connection.isConnected)
      ensures node.connection != null ==> (node.connection.outbox == old(node.connection.outbox) +
        (if failure.None? then [Encode(Volume(guild, v))] else []))
      ensures volume == (if failure.None? then v else old(volume))
      ensures currentTrack == old(currentTrack) && isAlive == old(isAlive) && isStopped == old(isStopped)
      ensures isPaused == old(isPaused) && isConnected == old(isConnected)
    {
      failure := node.Send(Encode(Volume(guild, v)));
      if failure.None? {
        volume := v;
      }
    }

    /**
     * `Player.disconnect`: sends `destroy`, removes the guild from the node's
     * players (KeyError when it is not there) and then calls the close hook,
     * reported as `closed`. The client's own registry is not touched.
     */
    method Disconnect() returns (failure: Option<Error>, closed: bool)
      modifies node, node.connection
      ensures failure == (if old(node.SendFailure()).Some? then old(node.SendFailure())
        else if guild !in old(node.players) then Some(KeyError(JInt(guild)))
        else None)
      ensures node.connection == old(node.connection)
      ensures node.connection != null ==>
        node.connection.socket == old(node.connection.socket) && node.connection.isConnected == old(node.connection.isConnected)
      ensures node.connection != null ==> (node.connection.outbox == old(node.connection.outbox) +
        (if old(node.SendFailure()).None? then [Encode(Destroy(guild))] else []))
      ensures node.players == (if failure.None? then old(node.players) - {guild} else old(node.players))
      ensures closed <==> failure.None?
      ensures node.isConnected == old(node.isConnected) && node.session == old(node.session)
    {
      closed := false;
      failure := node.Send(Encode(Destroy(guild)));
      if failure.Some? {
        return;
      }
      if guild !in node.players {
        return Some(KeyError(JInt(guild))), false;
      }
      node.players := node.players - {guild};
      closed := true;
    }

    /** `Player._update_state`: moves the current track, if any; nothing else changes. */
    method UpdateState(position: Json, length: Json)
      modifies this
      ensures currentTrack == (if old(currentTrack).None? then None
        else Some(old(currentTrack).value.(position := position, length := length)))
      ensures currentTrack.Some? ==> currentTrack.value.id == old(currentTrack).value.id
      ensures isAlive == old(isAlive) && isStopped == old(isStopped) && isPaused == old(isPaused)
      ensures volume == old(volume) && isConnected == old(isConnected)
    {
      if currentTrack.None? {
        return;
      }
      currentTrack := Some(currentTrack.value.(position := position, length := length));
    }
  }
}
