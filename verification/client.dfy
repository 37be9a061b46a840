/**
 * The client: an insertion-ordered pool of named nodes, a guild-keyed registry
 * of players, and the shared HTTP session.
 */
module Pool {
  import opened Py
  import opened Events
  import opened Lavalink

  /** `i` is the position of the earliest smallest load. */
  predicate Best(loads: seq<nat>, i: int) {
    0 <= i < |loads| &&
    (forall j :: 0 <= j < |loads| ==> loads[i] <= loads[j]) &&
    (forall j :: 0 <= j < i ==> loads[i] < loads[j])
  }

  /**
   * Position of the first element of a stable sort by load: the smallest
   * load, the earliest among equals.
   */
  function FirstMin(loads: seq<nat>): (i: nat)
    requires |loads| > 0
    ensures Best(loads, i)
    decreases |loads|
  {
    if |loads| == 1 then 0
    else
      var k := FirstMin(loads[1..]) + 1;
      assert forall j :: 1 <= j < |loads| ==> loads[j] == loads[1..][j - 1];
      if loads[0] <= loads[k] then 0 else k
  }

  /** There is only one earliest smallest load. */
  lemma BestUnique(loads: seq<nat>, i: int, k: int)
    requires Best(loads, i) && Best(loads, k)
    ensures i == k
  {
    assert loads[i] <= loads[k] && loads[k] <= loads[i];
  }

  /** The number of players on each node, in pool order. */
  function Loads(nodes: seq<(string, Node)>): (r: seq<nat>)
    reads set i | 0 <= i < |nodes| :: nodes[i].1
    ensures |r| == |nodes| && forall i :: 0 <= i < |nodes| ==> r[i] == |nodes[i].1.players|
  {
    if nodes == [] then [] else [|nodes[0].1.players|] + Loads(nodes[1..])
  }

  /** The dictionary's invariant: one entry per name, each under its own name and its own node. */
  predicate Keyed(nodes: seq<(string, Node)>) {
    (forall i, j :: 0 <= i < j < |nodes| ==> nodes[i].0 != nodes[j].0 && nodes[i].1 != nodes[j].1) &&
    (forall i :: 0 <= i < |nodes| ==> nodes[i].1.name == nodes[i].0)
  }

  /** Deleting an entry keeps the invariant and leaves no entry of that name. */
  lemma KeyedRemove(nodes: seq<(string, Node)>, i: nat)
    requires Keyed(nodes) && i < |nodes|
    ensures Keyed(nodes[..i] + nodes[i + 1..])
    ensures Find(nodes[..i] + nodes[i + 1..], nodes[i].0).None?
  {
    var rest := nodes[..i] + nodes[i + 1..];
    assert forall j :: 0 <= j < |rest| ==> rest[j] == nodes[if j < i then j else j + 1];
  }

  /** Position of the entry named `name`, if any. */
  function Find(nodes: seq<(string, Node)>, name: string): (r: Option<nat>)
    ensures r.Some? ==> r.value < |nodes| && nodes[r.value].0 == name
    ensures r.Some? ==> forall j :: 0 <= j < r.value ==> nodes[j].0 != name
    ensures r.None? ==> forall i :: 0 <= i < |nodes| ==> nodes[i].0 != name
  {
    if nodes == [] then None
    else if nodes[0].0 == name then Some(0)
    else
      match Find(nodes[1..], name)
      case None => None
      case Some(i) => Some(i + 1)
  }

  class Client {
    var nodes: seq<(string, Node)>   // `Client.nodes`, in insertion order
    var players: map<int, Player>
    var session: Option<int>

    /** The nodes of the pool. */
    function NodeSet(): set<Node>
      reads this
    {
      set i | 0 <= i < |nodes| :: nodes[i].1
    }

    /** The pool's invariant. */
    predicate Valid()
      reads this
    {
      Keyed(nodes)
    }

    /** `Client.__init__`: no nodes, no players, no session. */
    constructor()
      ensures nodes == [] && players == map[] && session.None? && Valid()
    {
      nodes := [];
      players := map[];
      session := None;
    }

    /** `Client.is_connected`: some node of the pool is connected. */
    method IsConnected() returns (b: bool)
      ensures b <==> exists i :: 0 <= i < |nodes| && nodes[i].1.isConnected
    {
      var i := 0;
      while i < |nodes|
        invariant 0 <= i <= |nodes|
        invariant forall j :: 0 <= j < i ==> !nodes[j].1.isConnected
      {
        if nodes[i].1.isConnected {
          return true;
        }
        i := i + 1;
      }
      return false;
    }

    /** `Client.close`: calls a `disconnect` method nodes do not have, so any node makes it raise. */
    method Close() returns (failure: Option<Error>)
      ensures failure.Some? <==> |nodes| > 0
      ensures failure.Some? ==> failure.value == AttributeError("disconnect")
    {
      if |nodes| > 0 {
        return Some(AttributeError("disconnect"));
      }
      return None;
    }

    /** `Client.get_best_node`: the earliest node with fewest players, connected or not. */
    function BestNode(): (r: Result<Node>)
      reads this, NodeSet()
      ensures r.Err? <==> |nodes| == 0
      ensures r.Err? ==> r.error == IndexError
      ensures r.Ok? ==> exists i :: Best(Loads(nodes), i) && r.value == nodes[i].1
    {
      if |nodes| == 0 then Err(IndexError)
      else Ok(nodes[FirstMin(Loads(nodes))].1)
    }

    /** `Client.get_player` */
    function GetPlayer(guild: Json): (r: Result<Option<Player>>)
      reads this
      ensures r.Ok? <==> PyInt(guild).Ok?
      ensures r.Ok? ==> r.value == (if PyInt(guild).value in players then Some(players[PyInt(guild).value]) else None)
    {
      Lookup(players, guild)
    }

    /** The node `connect` registers a player on: the given one or the best, which must be in the pool. */
    function Target(node: Node?): (r: Result<Node>)
      reads this, NodeSet()
      ensures r.Ok? ==> r.value in NodeSet()
      ensures node != null ==> (r.Ok? <==> node in NodeSet()) && (r.Ok? ==> r.value == node)
      ensures node == null ==> (r.Ok? <==> |nodes| > 0)
    {
      var chosen :- if node != null then Ok(node) else BestNode();
      if chosen in NodeSet() then Ok(chosen) else Err(Exception("Unknown Node Provided"))
    }

    /**
     * `Client.connect`: `made` is the player the voice component returns.
     * It is registered under `int(guild)` in both the client's and the node's
     * registries; a failed check leaves both untouched.
     */
    method Connect(guild: Json, node: Node?, made: Player) returns (r: Result<Player>)
      modifies this, NodeSet()
      ensures nodes == old(nodes) && session == old(session)
      ensures old(Target(node)).Err? ==> r == Err(old(Target(node)).error)
      ensures old(Target(node)).Ok? && PyInt(guild).Err? ==> r == Err(PyInt(guild).error)
      ensures r.Err? ==> players == old(players) && forall n :: n in NodeSet() ==> unchanged(n)
      ensures r.Ok? ==> r.value == made && old(Target(node)).Ok? && PyInt(guild).Ok?
      ensures r.Ok? ==> var n := old(Target(node)).value; var g := PyInt(guild).value;
        players == old(players)[g := made] && n.players == old(n.players)[g := made] &&
        n.isConnected == old(n.isConnected) && n.connection == old(n.connection) && n.session == old(n.session) &&
        forall m :: m in NodeSet() && m != n ==> unchanged(m)
      ensures r.Ok? ==> GetPlayer(guild) == Ok(Some(made)) && old(Target(node)).value.GetPlayer(guild) == Ok(Some(made))
    {
      var target := Target(node);
      if target.Err? {
        return Err(target.error);
      }
      var g := PyInt(guild);
      if g.Err? {
        return Err(g.error);
      }
      var chosen := target.value;
      players := players[g.value := made];
      chosen.players := chosen.players[g.value := players[g.value]];
      return Ok(players[g.value]);
    }

    /**
     * `Client.disconnect`: with any player registered it calls a `destroy`
     * method players do not have; otherwise it destroys the nodes.
     */
    method Disconnect() returns (failure: Option<Error>)
      requires Valid()
      modifies NodeSet()
      ensures |players| > 0 ==> failure == Some(AttributeError("destroy")) && forall n :: n in NodeSet() ==> unchanged(n)
      ensures |players| == 0 && failure.None? ==>
        forall i :: 0 <= i < |nodes| ==> old(nodes[i].1.DestroyFailure()).None? && !nodes[i].1.isConnected
      ensures |players| == 0 && failure.Some? ==> (
        exists k ::
          0 <= k < |nodes| && failure == old(nodes[k].1.DestroyFailure()) &&
          (forall i :: 0 <= i < k ==> old(nodes[i].1.DestroyFailure()).None? && !nodes[i].1.isConnected) &&
          (forall i :: k <= i < |nodes| ==> nodes[i].1.isConnected == old(nodes[i].1.isConnected)))
      ensures forall i :: 0 <= i < |nodes| ==>
        nodes[i].1.connection == old(nodes[i].1.connection) && nodes[i].1.players == old(nodes[i].1.players) &&
        nodes[i].1.session == old(nodes[i].1.session)
    {
      if |players| > 0 {
        return Some(AttributeError("destroy"));
      }
      failure := DestroyNodes();
    }

    /** The second loop of `Client.disconnect`: destroys each node in order, stopping at the first that raises. */
    method DestroyNodes() returns (failure: Option<Error>)
      requires Valid()
      modifies NodeSet()
      ensures failure.None? ==>
        forall i :: 0 <= i < |nodes| ==> old(nodes[i].1.DestroyFailure()).None? && !nodes[i].1.isConnected
      ensures failure.Some? ==> (
        exists k ::
          0 <= k < |nodes| && failure == old(nodes[k].1.DestroyFailure()) &&
          (forall i :: 0 <= i < k ==> old(nodes[i].1.DestroyFailure()).None? && !nodes[i].1.isConnected) &&
          (forall i :: k <= i < |nodes| ==> nodes[i].1.isConnected == old(nodes[i].1.isConnected)))
      ensures forall i :: 0 <= i < |nodes| ==>
        nodes[i].1.connection == old(nodes[i].1.connection) && nodes[i].1.players == old(nodes[i].1.players) &&
        nodes[i].1.session == old(nodes[i].1.session)
    {
      var k := 0;
      while k < |nodes|
        invariant 0 <= k <= |nodes|
        invariant forall i :: 0 <= i < |nodes| ==>
          nodes[i].1.connection == old(nodes[i].1.connection) && nodes[i].1.players == old(nodes[i].1.players) &&
          nodes[i].1.session == old(nodes[i].1.session)
        invariant forall i :: 0 <= i < k ==> old(nodes[i].1.DestroyFailure()).None? && !nodes[i].1.isConnected
        invariant forall i :: k <= i < |nodes| ==>
          nodes[i].1.isConnected == old(nodes[i].1.isConnected) && nodes[i].1.DestroyFailure() == old(nodes[i].1.DestroyFailure())
      {
        failure := nodes[k].1.Destroy();
        if failure.Some? {
          return;
        }
        k := k + 1;
      }
      return None;
    }

    /** `Client.add_node`: a new node under `name`, replacing in place any node of that name. */
    method AddNode(name: string, host: string, port: int, password: string)
      requires Valid()
      modifies this
      ensures Valid() && players == old(players) && session == old(session)
      ensures Find(nodes, name).Some?
      ensures var n := nodes[Find(nodes, name).value].1;
        fresh(n) && n.host == host && n.port == port && n.password == password &&
        n.session.None? && n.connection == null && !n.isConnected && n.players == map[]
      ensures old(Find(nodes, name)).Some? ==> (
        var i := old(Find(nodes, name)).value;
        |nodes| == |old(nodes)| && Find(nodes, name) == Some(i) &&
        forall j :: 0 <= j < |nodes| && j != i ==> nodes[j] == old(nodes)[j])
      ensures old(Find(nodes, name)).None? ==>
        |nodes| == |old(nodes)| + 1 && nodes[..|old(nodes)|] == old(nodes) && nodes[|old(nodes)|].0 == name
    {
      var n := new Node(name, host, port, password, None);
      var i := Find(nodes, name);
      if i.Some? {
        nodes := nodes[i.value := (name, n)];
        assert nodes[i.value].0 == name;
      } else {
        nodes := nodes + [(name, n)];
        assert nodes[|nodes| - 1].0 == name;
      }
    }

    /**
     * `Client.remove_node`: KeyError for an unknown name; a connected node is
     * destroyed first, and if that raises the pool is left as it was.
     */
    method RemoveNode(name: string) returns (failure: Option<Error>)
      requires Valid()
      modifies this, NodeSet()
      ensures Valid() && players == old(players) && session == old(session)
      ensures old(Find(nodes, name)).None? ==> failure == Some(KeyError(JStr(name))) && nodes == old(nodes)
      ensures old(Find(nodes, name)).Some? ==>
        var i := old(Find(nodes, name)).value; var n := old(nodes)[i].1;
        (failure == if old(n.isConnected) then old(n.DestroyFailure()) else None) &&
        (failure.None? ==> nodes == old(nodes)[..i] + old(nodes)[i + 1..] && Find(nodes, name).None?) &&
        (failure.Some? ==> nodes == old(nodes)) &&
        n.isConnected == (old(n.isConnected) && failure.Some?)
      ensures forall j :: 0 <= j < |old(nodes)| ==> (
        var m := old(nodes)[j].1;
        m.session == old(m.session) && m.connection == old(m.connection) && m.players == old(m.players))
      ensures forall j :: 0 <= j < |old(nodes)| && old(nodes)[j].0 != name ==> unchanged(old(nodes)[j].1)
    {
      var i := Find(nodes, name);
      if i.None? {
        return Some(KeyError(JStr(name)));
      }
      var n := nodes[i.value].1;
      if n.isConnected {
        failure := n.Destroy();
        if failure.Some? {
          return;
        }
      }
      KeyedRemove(nodes, i.value);
      nodes := nodes[..i.value] + nodes[i.value + 1..];
      return None;
    }

    /**
     * `Client.start_nodes`: opens the shared session `created` unless one
     * exists, then starts each node in order with it, stopping at the first
     * that raises; `accepts` names the nodes whose servers accept the
     * password.
     */
    method StartNodes(created: int, accepts: set<string>) returns (failure: Option<Error>)
      requires Valid()
      modifies this, NodeSet()
      ensures Valid() && nodes == old(nodes) && players == old(players)
      ensures session == (if old(session).Some? then old(session) else Some(created))
      ensures failure.None? <==> forall i :: 0 <= i < |nodes| ==> nodes[i].0 in accepts
      ensures failure.Some? ==> (
        exists k ::
          0 <= k < |nodes| && nodes[k].0 !in accepts &&
          failure == Some(AuthenticationError("Node::" + nodes[k].0 + " Authentication Failed!")) &&
          (forall i :: 0 <= i < k ==> nodes[i].0 in accepts) &&
          nodes[k].1.session == session && nodes[k].1.isConnected == old(nodes[k].1.isConnected) &&
          nodes[k].1.connection != null && fresh(nodes[k].1.connection) &&
          !nodes[k].1.connection.isConnected && nodes[k].1.connection.outbox == [] &&
          (forall i :: k < i < |nodes| ==> unchanged(nodes[i].1)))
      ensures forall i :: 0 <= i < |nodes| && (forall j :: 0 <= j <= i ==> nodes[j].0 in accepts) ==>
        nodes[i].1.Started(session) && fresh(nodes[i].1.connection)
      ensures forall i :: 0 <= i < |nodes| ==> nodes[i].1.players == old(nodes[i].1.players)
    {
      if session.None? {
        session := Some(created);
      }
      ghost var stop;
      failure, stop := StartEach(accepts);
    }

    /**
     * The loop of `start_nodes`: starts each node in order with the shared
     * session and stops at the first that raises; `stop` is that node's
     * position, or the pool's size when none raised.
     */
    method StartEach(accepts: set<string>) returns (failure: Option<Error>, ghost stop: nat)
      requires Valid() && session.Some?
      modifies NodeSet()
      ensures stop <= |nodes| && (failure.None? <==> stop == |nodes|)
      ensures forall i :: 0 <= i < stop ==>
        nodes[i].0 in accepts && nodes[i].1.Started(session) && fresh(nodes[i].1.connection)
      ensures stop < |nodes| ==>
        nodes[stop].0 !in accepts &&
        failure == Some(AuthenticationError("Node::" + nodes[stop].0 + " Authentication Failed!")) &&
        nodes[stop].1.session == session && nodes[stop].1.isConnected == old(nodes[stop].1.isConnected) &&
        nodes[stop].1.connection != null && fresh(nodes[stop].1.connection) &&
        !nodes[stop].1.connection.isConnected && nodes[stop].1.connection.outbox == []
      ensures forall i :: stop < i < |nodes| ==> unchanged(nodes[i].1)
      ensures forall i :: 0 <= i < |nodes| ==> nodes[i].1.players == old(nodes[i].1.players)
    {
      var k := 0;
      while k < |nodes|
        invariant 0 <= k <= |nodes|
        invariant forall i :: 0 <= i < k ==>
          nodes[i].0 in accepts && nodes[i].1.Started(session) && fresh(nodes[i].1.connection)
        invariant forall i :: 0 <= i < |nodes| ==> nodes[i].1.players == old(nodes[i].1.players)
        invariant forall i :: k <= i < |nodes| ==> unchanged(nodes[i].1)
      {
        var n := nodes[k].1;
        assert forall i :: 0 <= i < |nodes| && i != k ==> nodes[i].1 != n;
        failure := n.Start(session, nodes[k].0 in accepts);
        if failure.Some? {
          return failure, k;
        }
        k := k + 1;
      }
      return None, k;
    }
  }
}
