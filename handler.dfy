/**
 * The WebSocket handshake and dispatch of the TypeScript server
 * (apps/node_server/src/ws/handler.ts): classifying an upgrade request as
 * host, reconnecting player, new player or refusal; binding sockets on open;
 * dispatching host and player messages; unbinding on close.
 *
 * The request arrives as its path and its three query parameters. The
 * outcome of `server.upgrade` and the token `randomUUID` would produce are
 * parameters. Room members that this handler calls but that are not part of
 * this model (the room's game actor and its `handleHostCorrect`,
 * `handleHostIncorrect`, `handleHostChoice`, `handleHostReady` and
 * `handlePlayerBuzz`) appear as the game-machine event the handler hands to
 * them, and the success of `handlePlayerBuzz` and the actor's snapshot are
 * parameters.
 */
module Handshake {
  import opened Wrappers
  import opened Text
  import opened JsParseInt
  import opened Net
  import opened PlayerObject
  import opened RoomObject
  import opened RoomRegistry
  import GameMachine

  // ---------------------------------------------------------------------------
  // The path

  const PathPrefix: string := "/api/v1/rooms/"
  const PathSuffix: string := "/ws"
  /** The `{6}` of the path pattern. */
  const PathCodeLength: nat := 6

  /** The WebSocket path of a room. */
  function WsPath(code: string): string
  {
    PathPrefix + code + PathSuffix
  }

  /**
   * The match of `/^\/api\/v1\/rooms\/([A-Z]{6})\/ws$/i`: the whole path,
   * letters compared without case, and the six captured letters as written.
   */
  function MatchWsPath(path: string): Option<string>
  {
    var start := |PathPrefix|;
    var end := |PathPrefix| + PathCodeLength;
    if |path| == end + |PathSuffix|
       && SameIgnoringCase(path[..start], PathPrefix)
       && (forall i :: start <= i < end ==> IsLetter(path[i]))
       && SameIgnoringCase(path[end..], PathSuffix)
    then Some(path[start..end])
    else None
  }

  /** A match captures six letters, and the path is the room's path up to case. */
  lemma MatchWsPathSound(path: string)
    requires MatchWsPath(path).Some?
    ensures var code := MatchWsPath(path).value;
      && |code| == PathCodeLength
      && (forall i :: 0 <= i < |code| ==> IsLetter(code[i]))
      && SameIgnoringCase(path, WsPath(code))
  {
    var code := MatchWsPath(path).value;
    var start := |PathPrefix|;
    var end := start + PathCodeLength;
    assert path == path[..start] + code + path[end..];
    forall i | 0 <= i < |path|
      ensures Upper(path)[i] == Upper(WsPath(code))[i]
    {
      if i < start {
        assert Upper(path)[i] == Upper(path[..start])[i];
      } else if i >= end {
        assert Upper(path)[i] == Upper(path[end..])[i - end];
      }
    }
  }

  /** The path of any six-letter code matches, capturing the code as written. */
  lemma MatchWsPathComplete(code: string)
    requires |code| == PathCodeLength
    requires forall i :: 0 <= i < |code| ==> IsLetter(code[i])
    ensures MatchWsPath(WsPath(code)) == Some(code)
  {
    var path := WsPath(code);
    var start := |PathPrefix|;
    var end := start + PathCodeLength;
    assert path[..start] == PathPrefix;
    assert path[start..end] == code;
    assert path[end..] == PathSuffix;
  }

  /** The pattern ignores case: a path matches exactly when its upper-case form does. */
  lemma {:induction false} MatchWsPathIgnoresCase(path: string)
    ensures MatchWsPath(Upper(path)).Some? <==> MatchWsPath(path).Some?
    ensures MatchWsPath(path).Some? ==> MatchWsPath(Upper(path)) == Some(Upper(MatchWsPath(path).value))
  {
    var up := Upper(path);
    var start := |PathPrefix|;
    var end := start + PathCodeLength;
    if |path| == end + |PathSuffix| {
      assert Upper(up[..start]) == Upper(path[..start]) by {
        assert up[..start] == Upper(path[..start]);
        UpperIdempotent(path[..start]);
      }
      assert Upper(up[end..]) == Upper(path[end..]) by {
        assert up[end..] == Upper(path[end..]);
        UpperIdempotent(path[end..]);
      }
      assert forall i :: start <= i < end ==> (IsLetter(up[i]) <==> IsLetter(path[i]));
      assert up[start..end] == Upper(path[start..end]);
    }
  }

  // ---------------------------------------------------------------------------
  // Classifying an upgrade request

  /** The query parameters; `None` for a parameter that is absent. */
  datatype Query = Query(token: Option<string>, playerName: Option<string>, playerID: Option<string>)

  /** JavaScript truthiness of `searchParams.get(...)`: present and not empty. */
  predicate Truthy(v: Option<string>)
  {
    v.Some? && v.value != ""
  }

  datatype Decision =
    | AsHost
    | Rejoin(pid: int, token: string)
    | Join(name: string)
    | Refuse(status: int, reason: string)

  /**
   * The host token wins; then a player id together with a token must name a
   * player holding that token; then a name joins as a new player; anything
   * else is refused.
   */
  function Classify(q: Query, hostToken: string, players: seq<Player>): (d: Decision)
    ensures d.Rejoin? ==> Lookup(players, d.pid).Some? && Lookup(players, d.pid).value.token == d.token
    ensures d.Refuse? ==> d.status in {400, 401}
  {
    if Truthy(q.token) && q.token.value == hostToken then AsHost
    else if Truthy(q.playerID) && Truthy(q.token) then
      var pid := ParseInt(q.playerID.value);
      if pid.None? || Lookup(players, pid.value).None? || Lookup(players, pid.value).value.token != q.token.value
      then Refuse(401, "Invalid player credentials")
      else Rejoin(pid.value, q.token.value)
    else if Truthy(q.playerName) then Join(q.playerName.value)
    else Refuse(400, "Missing required parameters")
  }

  /** The host token takes precedence over a player id and a name. */
  lemma HostFirst(q: Query, hostToken: string, players: seq<Player>)
    ensures Classify(q, hostToken, players) == AsHost <==> Truthy(q.token) && q.token.value == hostToken
  {
  }

  /**
   * A reconnect is accepted exactly when the id parses to the pid of a stored
   * player whose token is the one given (and the token is not the host's).
   */
  lemma RejoinExactly(q: Query, hostToken: string, players: seq<Player>, pid: int)
    ensures Classify(q, hostToken, players) == Rejoin(pid, q.token.GetOr("")) <==>
      && Truthy(q.token) && q.token.value != hostToken && Truthy(q.playerID)
      && ParseInt(q.playerID.value) == Some(pid)
      && Lookup(players, pid).Some? && Lookup(players, pid).value.token == q.token.value
  {
  }

  /** With an id and a token that do not name a player, the answer is 401, whatever the name says. */
  lemma BadCredentials(q: Query, hostToken: string, players: seq<Player>)
    requires Truthy(q.token) && q.token.value != hostToken && Truthy(q.playerID)
    requires var pid := ParseInt(q.playerID.value);
      pid.None? || Lookup(players, pid.value).None? || Lookup(players, pid.value).value.token != q.token.value
    ensures Classify(q, hostToken, players) == Refuse(401, "Invalid player credentials")
  {
  }

  /** A name joins exactly when neither the host token nor an id-and-token pair is given. */
  lemma JoinExactly(q: Query, hostToken: string, players: seq<Player>)
    ensures Classify(q, hostToken, players).Join? <==>
      && !(Truthy(q.token) && q.token.value == hostToken)
      && !(Truthy(q.playerID) && Truthy(q.token))
      && Truthy(q.playerName)
    ensures Classify(q, hostToken, players).Join? ==> Classify(q, hostToken, players).name == q.playerName.value
  {
  }

  /** A token without a player id is never a reconnect: it joins by name or is refused. */
  lemma TokenAloneIsNoReconnect(q: Query, hostToken: string, players: seq<Player>)
    requires Truthy(q.token) && q.token.value != hostToken && !Truthy(q.playerID)
    ensures Classify(q, hostToken, players) ==
      if Truthy(q.playerName) then Join(q.playerName.value) else Refuse(400, "Missing required parameters")
  {
  }

  // ---------------------------------------------------------------------------
  // handleUpgrade

  /** What the handshake attaches to an accepted socket. */
  datatype WSData = WSData(roomCode: string, isHost: bool, playerId: Option<int>, playerToken: Option<string>)

  datatype UpgradeResult = Upgraded(data: WSData) | Rejected(status: int, reason: string)

  /** The room a path names: no room for a path that does not match. */
  function PathRoom(rm: RoomManager, path: string): Option<Room>
    reads rm
  {
    match MatchWsPath(path)
    case None => None
    case Some(code) => rm.GetRoom(Upper(code))
  }

  /**
   * The answer once the decision is made: the socket data for an accepted
   * connection, or the refusal; an upgrade that fails is a 500.
   */
  function Outcome(d: Decision, code: string, newPid: int, freshToken: string, upgrade: bool): UpgradeResult
  {
    match d
    case Refuse(status, reason) => Rejected(status, reason)
    case _ =>
      if !upgrade then Rejected(500, "WebSocket upgrade failed")
      else match d
        case AsHost => Upgraded(WSData(code, true, None, None))
        case Rejoin(pid, token) => Upgraded(WSData(code, false, Some(pid), Some(token)))
        case Join(_) => Upgraded(WSData(code, false, Some(newPid), Some(freshToken)))
  }

  /**
   * Handles an upgrade request: a bad path is a 400 and an unknown room a 404,
   * before any parameter is read; otherwise the decision of `Classify` on the
   * room as it was. Only a join changes the room, adding exactly one player
   * with the next pid and the fresh token, and that player stays even when
   * the upgrade then fails.
   */
  method HandleUpgrade(rm: RoomManager, path: string, q: Query, freshToken: string, upgrade: bool)
    returns (res: UpgradeResult)
    requires rm.Valid()
    modifies if PathRoom(rm, path).Some? then {PathRoom(rm, path).value} else {}
    ensures rm.Valid()
    ensures MatchWsPath(path).None? ==> res == Rejected(400, "Invalid WebSocket path")
    ensures MatchWsPath(path).Some? && PathRoom(rm, path).None? ==> res == Rejected(404, "Room not found")
    ensures PathRoom(rm, path).Some? ==>
      var room := PathRoom(rm, path).value;
      var d := Classify(q, room.hostToken, old(room.players));
      && res == Outcome(d, Upper(MatchWsPath(path).value), old(room.nextPid), freshToken, upgrade)
      && room.hostWs == old(room.hostWs) && room.buzzingEnabled == old(room.buzzingEnabled)
      && room.currentBuzzer == old(room.currentBuzzer) && room.gameState == old(room.gameState)
      && (!d.Join? ==> room.players == old(room.players) && room.nextPid == old(room.nextPid))
      && (d.Join? ==>
            && |room.players| == |old(room.players)| + 1
            && room.players[..|old(room.players)|] == old(room.players)
            && var p := room.players[|old(room.players)|];
            && p.pid == old(room.nextPid) && p.name == d.name && p.token == freshToken
            && room.nextPid == old(room.nextPid) + 1)
  {
    var m := MatchWsPath(path);
    if m.None? {
      return Rejected(400, "Invalid WebSocket path");
    }
    var roomCode := Upper(m.value);
    var found := rm.GetRoom(roomCode);
    UpperIdempotent(m.value);
    if found.None? {
      return Rejected(404, "Room not found");
    }
    var room := found.value;
    var d := Classify(q, room.hostToken, room.players);
    var newPid := room.nextPid;
    if d.Join? {
      var p := room.AddPlayer(d.name, freshToken);
    }
    return Outcome(d, roomCode, newPid, freshToken, upgrade);
  }

  // ---------------------------------------------------------------------------
  // handleOpen

  /** Whether a player could buzz right now: the actor exists, the room's gate is up and the pid is eligible. */
  predicate CouldBuzzNow(actor: Option<GameMachine.Context>, buzzingEnabled: bool, pid: Option<int>)
  {
    && actor.Some?
    && buzzingEnabled
    && pid.Some?
    && exists p :: p in GameMachine.EligiblePlayers(actor.value.players, actor.value.excludedPlayers) && p.pid == pid.value
  }

  /** The player a socket's data names in its room, if any. */
  function DataPlayer(room: Room, data: WSData): Option<Player>
    reads room
  {
    if data.isHost || data.playerId.None? then None else Lookup(room.players, data.playerId.value)
  }

  /** What `handleOpen` may change: the room's host socket, or the named player's connection. */
  function OpenFootprint(rm: RoomManager, data: WSData): set<object>
    reads rm, rm.rooms.Values
  {
    match rm.GetRoom(data.roomCode)
    case None => {}
    case Some(room) =>
      if data.isHost then {room}
      else if data.playerId.Some? then PlayerFrame(room.players, data.playerId.value)
      else {}
  }

  /**
   * Binds a freshly opened socket. An unknown room closes it with 1008. A
   * player that could buzz right now is first told so on the socket itself.
   * The host becomes the room's host socket and is sent the player list; a
   * known player is connected to the socket, sent its pid and token (also on
   * a reconnect), and the host is sent the player list.
   */
  method HandleOpen(rm: RoomManager, ws: Socket, data: WSData, actor: Option<GameMachine.Context>, net: Network)
    requires rm.Valid()
    requires !data.isHost && data.playerId.Some? ==> data.playerToken.Some?
    modifies OpenFootprint(rm, data), net
    ensures rm.Valid()
    ensures rm.GetRoom(data.roomCode).None? ==>
      net.log == old(net.log) + [Closed(ws, Some(1008), Some("Room not found"))]
    ensures rm.GetRoom(data.roomCode).Some? && data.isHost ==>
      var room := rm.GetRoom(data.roomCode).value;
      && room.hostWs == Some(ws) && room.players == old(room.players) && room.nextPid == old(room.nextPid)
      && room.gameState == old(room.gameState) && room.buzzingEnabled == old(room.buzzingEnabled)
      && room.currentBuzzer == old(room.currentBuzzer)
      && net.log == old(net.log) + [Sent(ws, PlayerList(Roster(room.players)))]
    ensures rm.GetRoom(data.roomCode).Some? && !data.isHost ==>
      var room := rm.GetRoom(data.roomCode).value;
      var hint := if CouldBuzzNow(actor, room.buzzingEnabled, data.playerId) then [Sent(ws, BuzzEnabled)] else [];
      && room.hostWs == old(room.hostWs) && room.players == old(room.players)
      && (DataPlayer(room, data).None? ==> net.log == old(net.log) + hint)
      && (DataPlayer(room, data).Some? ==>
            var p := DataPlayer(room, data).value;
            && p.ws == Some(ws) && p.connected
            && p.score == old(p.score) && p.canBuzz == old(p.canBuzz)
            && net.log == old(net.log) + hint
                 + [Sent(ws, NewPlayer(p.pid, data.playerToken.value))]
                 + ToHost(room.hostWs, PlayerList(Roster(room.players))))
  {
    var found := rm.GetRoom(data.roomCode);
    if found.None? {
      net.Close(ws, Some(1008), Some("Room not found"));
      return;
    }
    var room := found.value;
    if data.isHost {
      OpenHost(room, ws, net);
    } else {
      OpenGuest(room, ws, data, actor, net);
    }
    ValidKept(rm);
  }

  /**
   * A player's socket opens: the hint that buzzing is open comes first,
   * then the player is bound as `OpenPlayer` does.
   */
  method OpenGuest(room: Room, ws: Socket, data: WSData, actor: Option<GameMachine.Context>, net: Network)
    requires !data.isHost && (data.playerId.Some? ==> data.playerToken.Some?)
    modifies (if data.playerId.Some? then PlayerFrame(room.players, data.playerId.value) else {}), net
    ensures
      var hint := if CouldBuzzNow(actor, room.buzzingEnabled, data.playerId) then [Sent(ws, BuzzEnabled)] else [];
      && (DataPlayer(room, data).None? ==> net.log == old(net.log) + hint)
      && (DataPlayer(room, data).Some? ==>
            var p := DataPlayer(room, data).value;
            && p.ws == Some(ws) && p.connected
            && p.score == old(p.score) && p.canBuzz == old(p.canBuzz)
            && net.log == old(net.log) + hint
                 + [Sent(ws, NewPlayer(p.pid, data.playerToken.value))]
                 + ToHost(room.hostWs, PlayerList(Roster(room.players))))
  {
    if actor.Some? && room.buzzingEnabled && data.playerId.Some?
       && HasEligible(GameMachine.EligiblePlayers(actor.value.players, actor.value.excludedPlayers), data.playerId.value)
    {
      net.Send(ws, BuzzEnabled);
    }
    if data.playerId.Some? {
      OpenPlayer(room, ws, data.playerId.value, data.playerToken.value, net);
    }
  }

  /** The host's socket opens: it becomes the room's host socket and gets the player list. */
  method OpenHost(room: Room, ws: Socket, net: Network)
    modifies room`hostWs, net
    ensures room.hostWs == Some(ws)
    ensures net.log == old(net.log) + [Sent(ws, PlayerList(Roster(room.players)))]
  {
    room.ConnectHost(ws);
    room.SendPlayerList(net);
  }

  /** The player `pid` may change, if the room has one. */
  function PlayerFrame(ps: seq<Player>, pid: int): set<object>
  {
    if Lookup(ps, pid).Some? then {Lookup(ps, pid).value} else {}
  }

  /**
   * A player's socket opens: a known player is bound to it, sent its pid and
   * token, and the host gets the new list; an unknown pid is ignored.
   */
  method OpenPlayer(room: Room, ws: Socket, pid: int, token: string, net: Network)
    modifies PlayerFrame(room.players, pid), net
    ensures Lookup(room.players, pid).None? ==> net.log == old(net.log)
    ensures Lookup(room.players, pid).Some? ==>
      var p := Lookup(room.players, pid).value;
      && p.ws == Some(ws) && p.connected
      && p.score == old(p.score) && p.canBuzz == old(p.canBuzz)
      && net.log == old(net.log) + [Sent(ws, NewPlayer(pid, token))]
           + ToHost(room.hostWs, PlayerList(Roster(room.players)))
  {
    var player := room.GetPlayer(pid);
    if player.Some? {
      var p := player.value;
      p.Connect(ws);
      p.Send(NewPlayer(p.pid, token), net);
      room.SendPlayerList(net);
    }
  }

  /** `.some((p) => p.pid === pid)` */
  function HasEligible(ps: seq<GameMachine.PlayerState>, pid: int): (b: bool)
    ensures b <==> exists p :: p in ps && p.pid == pid
  {
    if ps == [] then false else ps[0].pid == pid || HasEligible(ps[1..], pid)
  }

  // ---------------------------------------------------------------------------
  // handleMessage

  /** The game-machine event a host message is handed on as, if any. */
  function HostEvent(msg: Inbound): Option<GameMachine.Event>
  {
    match msg
    case HostChecked(correct) => Some(if correct then GameMachine.HostCorrect else GameMachine.HostIncorrect)
    case HostChoice(ci, qi) => Some(GameMachine.HostChoice(ci, qi))
    case HostReady => Some(GameMachine.HostReady)
    case _ => None
  }

  /** A room and its players: what a message may change. */
  function RoomFootprint(rm: RoomManager, code: string): set<object>
    reads rm, rm.rooms.Values
  {
    match rm.GetRoom(code)
    case None => {}
    case Some(room) =>
      var members: set<object> := set p | p in room.players;
      members + {room}
  }

  /**
   * What a host message did: the lobby commands set the phase or the buzz
   * gate and announce it to the players and the host; a verdict, a choice
   * and "ready" are handed to the game machine as its events; anything else
   * changes nothing. The players, the pid counter, the host socket and every
   * player's score and connection always stay. The room's game-machine calls
   * (`handleHostCorrect` and the rest) are outside this model and are taken
   * to change neither the room nor the outbox.
   */
  twostate predicate HostOutcome(room: Room, msg: Inbound, new forwarded: Option<GameMachine.Event>, net: Network)
    reads room, room.players, net
  {
    && forwarded == HostEvent(msg)
    && room.players == old(room.players) && room.nextPid == old(room.nextPid) && room.hostWs == old(room.hostWs)
    && (forall i :: 0 <= i < |room.players| ==>
          && room.players[i].score == old(room.players[i].score)
          && room.players[i].connected == old(room.players[i].connected)
          && room.players[i].ws == old(room.players[i].ws))
    && (!msg.BuzzEnable? ==>
          forall i :: 0 <= i < |room.players| ==> room.players[i].canBuzz == old(room.players[i].canBuzz))
    && (msg.StartGame? ==>
          && room.gameState == Playing
          && room.buzzingEnabled == old(room.buzzingEnabled) && room.currentBuzzer == old(room.currentBuzzer)
          && net.log == old(net.log) + Fanout(room.players, GameStarted) + ToHost(room.hostWs, GameStarted))
    && (msg.EndGame? ==>
          && room.gameState == Ended
          && room.buzzingEnabled == old(room.buzzingEnabled) && room.currentBuzzer == old(room.currentBuzzer)
          && net.log == old(net.log) + Fanout(room.players, GameEnded) + ToHost(room.hostWs, GameEnded))
    && (msg.BuzzEnable? ==>
          && room.buzzingEnabled && room.currentBuzzer == None && room.gameState == old(room.gameState)
          && (forall i :: 0 <= i < |room.players| ==> room.players[i].canBuzz)
          && net.log == old(net.log) + Fanout(room.players, BuzzEnabled) + ToHost(room.hostWs, BuzzEnabled))
    && (msg.BuzzDisable? ==>
          && !room.buzzingEnabled && room.currentBuzzer == old(room.currentBuzzer) && room.gameState == old(room.gameState)
          && net.log == old(net.log) + Fanout(room.players, BuzzDisabled) + ToHost(room.hostWs, BuzzDisabled))
    && (!(msg.StartGame? || msg.EndGame? || msg.BuzzEnable? || msg.BuzzDisable?) ==>
          && net.log == old(net.log)
          && room.gameState == old(room.gameState) && room.buzzingEnabled == old(room.buzzingEnabled)
          && room.currentBuzzer == old(room.currentBuzzer))
  }

  /** Nothing in the room or any of its players changed. */
  twostate predicate RoomKept(room: Room)
    reads room, room.players
  {
    && unchanged(room)
    && forall i :: 0 <= i < |room.players| ==> unchanged(room.players[i])
  }

  /**
   * A host message: the lobby commands act on the room; an answer verdict,
   * a question choice and "ready" are handed to the game machine; anything
   * else is ignored.
   */
  method HandleHostMessage(room: Room, msg: Inbound, net: Network) returns (forwarded: Option<GameMachine.Event>)
    modifies room, room.players, net
    ensures HostOutcome(room, msg, forwarded, net)
  {
    forwarded := None;
    match msg
    case StartGame => room.StartGame(net);
    case EndGame => room.EndGame(net);
    case BuzzEnable => room.EnableBuzzing(net);
    case BuzzDisable => room.DisableBuzzing(net);
    case HostChecked(_) => forwarded := HostEvent(msg);
    case HostChoice(_, _) => forwarded := HostEvent(msg);
    case HostReady => forwarded := HostEvent(msg);
    case _ =>
  }

  /**
   * A player message from `pid`: ignored for an unknown pid. A buzz is first
   * offered to the game machine and, when the machine does not take it,
   * to the room's own buzz gate. A heartbeat is answered with the same id.
   * Whether the machine takes the buzz is an input; that room call is
   * outside this model and is taken to change neither the room nor the outbox.
   */
  method HandlePlayerMessage(room: Room, pid: int, msg: Inbound, machineTookBuzz: bool, net: Network)
    returns (forwarded: Option<GameMachine.Event>, buzzed: bool)
    modifies room`currentBuzzer, room`buzzingEnabled, net
    ensures Lookup(room.players, pid).None? ==>
      forwarded == None && !buzzed && net.log == old(net.log)
      && room.currentBuzzer == old(room.currentBuzzer) && room.buzzingEnabled == old(room.buzzingEnabled)
    ensures Lookup(room.players, pid).Some? && msg.Buzz? ==>
      && forwarded == Some(GameMachine.PlayerBuzz(pid))
      && (machineTookBuzz ==>
            && buzzed && net.log == old(net.log)
            && room.currentBuzzer == old(room.currentBuzzer) && room.buzzingEnabled == old(room.buzzingEnabled))
      && (!machineTookBuzz ==>
            (buzzed <==> old(room.buzzingEnabled) && Lookup(room.players, pid).value.canBuzz))
    ensures Lookup(room.players, pid).Some? && msg.Buzz? && !machineTookBuzz && buzzed ==>
      && room.currentBuzzer == Some(pid) && !room.buzzingEnabled
      && net.log == old(net.log)
           + ToHost(room.hostWs, Buzzed(pid, Lookup(room.players, pid).value.name))
           + Fanout(room.players, BuzzDisabled) + ToHost(room.hostWs, BuzzDisabled)
    ensures Lookup(room.players, pid).Some? && msg.Buzz? && !machineTookBuzz && !buzzed ==>
      && room.currentBuzzer == old(room.currentBuzzer) && room.buzzingEnabled == old(room.buzzingEnabled)
      && net.log == old(net.log)
    ensures Lookup(room.players, pid).Some? && msg.Heartbeat? ==>
      && forwarded == None && !buzzed
      && net.log == old(net.log) + Lookup(room.players, pid).value.Delivery(GotHeartbeat(msg.hbid))
    ensures Lookup(room.players, pid).Some? && !msg.Buzz? ==>
      room.currentBuzzer == old(room.currentBuzzer) && room.buzzingEnabled == old(room.buzzingEnabled)
    ensures Lookup(room.players, pid).Some? && !msg.Buzz? && !msg.Heartbeat? ==>
      forwarded == None && !buzzed && net.log == old(net.log)
  {
    forwarded, buzzed := None, false;
    var player := room.GetPlayer(pid);
    if player.None? {
      return;
    }
    match msg
    case Buzz =>
      forwarded := Some(GameMachine.PlayerBuzz(pid));
      buzzed := machineTookBuzz;
      if !buzzed {
        buzzed := room.HandleBuzz(pid, net);
      }
    case Heartbeat(hbid) =>
      player.value.Send(GotHeartbeat(hbid), net);
    case _ =>
  }

  /**
   * What a player message from `pid` did: an unknown pid is ignored; a buzz
   * is handed to the game machine and, when the machine does not take it
   * and the room's gate lets it through, takes the room's buzzer; a
   * heartbeat is answered with the same id; anything else is ignored.
   */
  twostate predicate PlayerOutcome(room: Room, pid: int, msg: Inbound, machineTookBuzz: bool,
                                   new forwarded: Option<GameMachine.Event>, net: Network)
    reads room, room.players, net
  {
    && (Lookup(room.players, pid).None? ==> forwarded == None && net.log == old(net.log))
    && (Lookup(room.players, pid).Some? && msg.Buzz? ==>
          && forwarded == Some(GameMachine.PlayerBuzz(pid))
          && (!machineTookBuzz && old(room.buzzingEnabled) && Lookup(room.players, pid).value.canBuzz ==>
                room.currentBuzzer == Some(pid) && !room.buzzingEnabled)
          && (machineTookBuzz || !old(room.buzzingEnabled) || !Lookup(room.players, pid).value.canBuzz ==>
                room.currentBuzzer == old(room.currentBuzzer) && room.buzzingEnabled == old(room.buzzingEnabled)
                && net.log == old(net.log)))
    && (Lookup(room.players, pid).Some? && msg.Heartbeat? ==>
          forwarded == None
          && net.log == old(net.log) + Lookup(room.players, pid).value.Delivery(GotHeartbeat(msg.hbid)))
    && (Lookup(room.players, pid).Some? && !msg.Buzz? && !msg.Heartbeat? ==>
          forwarded == None && net.log == old(net.log))
  }

  /**
   * A message on a socket: an unknown room closes the socket with 1008, an
   * unparsable message is dropped, and the rest goes to the host or player
   * dispatch.
   */
  method HandleMessage(rm: RoomManager, ws: Socket, data: WSData, msg: Option<Inbound>, machineTookBuzz: bool, net: Network)
    returns (forwarded: Option<GameMachine.Event>)
    requires rm.Valid()
    modifies RoomFootprint(rm, data.roomCode), net
    ensures rm.Valid()
    ensures rm.GetRoom(data.roomCode).None? ==>
      forwarded == None && net.log == old(net.log) + [Closed(ws, Some(1008), Some("Room not found"))]
    ensures rm.GetRoom(data.roomCode).Some? && msg.None? ==>
      forwarded == None && net.log == old(net.log) && RoomKept(rm.GetRoom(data.roomCode).value)
    ensures rm.GetRoom(data.roomCode).Some? && msg.Some? && data.isHost ==>
      HostOutcome(rm.GetRoom(data.roomCode).value, msg.value, forwarded, net)
    ensures rm.GetRoom(data.roomCode).Some? && !data.isHost && data.playerId.None? ==>
      forwarded == None && net.log == old(net.log) && RoomKept(rm.GetRoom(data.roomCode).value)
    ensures rm.GetRoom(data.roomCode).Some? && msg.Some? && !data.isHost && data.playerId.Some? ==>
      var room := rm.GetRoom(data.roomCode).value;
      && room.players == old(room.players) && room.nextPid == old(room.nextPid) && room.hostWs == old(room.hostWs)
      && PlayerOutcome(room, data.playerId.value, msg.value, machineTookBuzz, forwarded, net)
  {
    forwarded := None;
    var found := rm.GetRoom(data.roomCode);
    if found.None? {
      net.Close(ws, Some(1008), Some("Room not found"));
      return;
    }
    if msg.None? {
      return;
    }
    var room := found.value;
    if data.isHost {
      forwarded := HandleHostMessage(room, msg.value, net);
    } else if data.playerId.Some? {
      var buzzed;
      forwarded, buzzed := HandlePlayerMessage(room, data.playerId.value, msg.value, machineTookBuzz, net);
    }
    ValidKept(rm);
  }

  // ---------------------------------------------------------------------------
  // handleClose

  /**
   * A closed socket: the host socket is cleared; a known player is marked
   * disconnected but stays in the room, and the host gets the new list.
   */
  method HandleClose(rm: RoomManager, data: WSData, net: Network)
    requires rm.Valid()
    modifies OpenFootprint(rm, data), net
    ensures rm.Valid()
    ensures rm.GetRoom(data.roomCode).None? ==> net.log == old(net.log)
    ensures rm.GetRoom(data.roomCode).Some? && data.isHost ==>
      var room := rm.GetRoom(data.roomCode).value;
      && room.hostWs == None && room.players == old(room.players) && room.nextPid == old(room.nextPid)
      && room.gameState == old(room.gameState) && room.buzzingEnabled == old(room.buzzingEnabled)
      && room.currentBuzzer == old(room.currentBuzzer)
      && net.log == old(net.log)
    ensures rm.GetRoom(data.roomCode).Some? && !data.isHost ==>
      var room := rm.GetRoom(data.roomCode).value;
      && room.players == old(room.players) && room.hostWs == old(room.hostWs)
      && (DataPlayer(room, data).None? ==> net.log == old(net.log))
      && (DataPlayer(room, data).Some? ==>
            var p := DataPlayer(room, data).value;
            && p.ws == None && !p.connected && p in room.players
            && p.score == old(p.score) && p.canBuzz == old(p.canBuzz)
            && net.log == old(net.log) + ToHost(room.hostWs, PlayerList(Roster(room.players))))
  {
    var found := rm.GetRoom(data.roomCode);
    if found.None? {
      return;
    }
    var room := found.value;
    if data.isHost {
      room.DisconnectHost();
    } else if data.playerId.Some? {
      var player := room.GetPlayer(data.playerId.value);
      if player.Some? {
        player.value.Disconnect();
        room.SendPlayerList(net);
      }
    }
    ValidKept(rm);
  }

  /**
   * A player's socket closes and the player comes back on a new socket: the
   * player is still in the room under the same pid, bound to the new socket,
   * with the score and buzz permission it had before.
   */
  method CloseThenReopen(rm: RoomManager, data: WSData, ws: Socket, actor: Option<GameMachine.Context>, net: Network)
    requires rm.Valid()
    requires !data.isHost && data.playerId.Some? && data.playerToken.Some?
    modifies OpenFootprint(rm, data), net
    ensures rm.Valid()
    ensures rm.GetRoom(data.roomCode).Some? ==>
      var room := rm.GetRoom(data.roomCode).value;
      && room.players == old(room.players)
      && (DataPlayer(room, data).Some? ==>
            var p := DataPlayer(room, data).value;
            && p.ws == Some(ws) && p.connected
            && p.score == old(p.score) && p.canBuzz == old(p.canBuzz))
  {
    HandleClose(rm, data, net);
    HandleOpen(rm, ws, data, actor, net);
  }
}
