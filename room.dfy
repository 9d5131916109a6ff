/**
 * A TypeScript room (apps/node_server/src/game/Room.ts): the host socket, the
 * players keyed by pid, the lobby/playing/ended phase and the buzz gate.
 *
 * The `Map<number, Player>` of the source is a sequence of players in
 * insertion order (the iteration order of a JavaScript Map); a player's key
 * is its own `pid`, which never changes, so the map is "the player whose
 * pid is k".
 */
module RoomObject {
  import opened Wrappers
  import opened Net
  import opened PlayerObject

  datatype Phase = Lobby | Playing | Ended

  /** No two players share a pid, i.e. the sequence really is a map keyed by pid. */
  predicate DistinctPids(ps: seq<Player>)
  {
    forall i, j :: 0 <= i < j < |ps| ==> ps[i].pid != ps[j].pid
  }

  /** `players.get(pid)`: the player stored under `pid`, if any. */
  function Lookup(ps: seq<Player>, pid: int): (r: Option<Player>)
    ensures r.Some? ==> r.value in ps && r.value.pid == pid
    ensures r.None? <==> forall i :: 0 <= i < |ps| ==> ps[i].pid != pid
  {
    if ps == [] then None
    else if ps[0].pid == pid then Some(ps[0])
    else Lookup(ps[1..], pid)
  }

  /** With distinct pids, the player stored under a pid is the only one carrying it. */
  lemma {:induction false} LookupUnique(ps: seq<Player>, i: int)
    requires DistinctPids(ps)
    requires 0 <= i < |ps|
    ensures Lookup(ps, ps[i].pid) == Some(ps[i])
  {
    if i > 0 {
      assert ps[0].pid != ps[i].pid;
      assert ps[1..][i - 1] == ps[i];
      LookupUnique(ps[1..], i - 1);
    }
  }

  /** `players.delete(pid)`: every player but the one stored under `pid`, in the same order. */
  function Without(ps: seq<Player>, pid: int): seq<Player>
  {
    if ps == [] then []
    else if ps[0].pid == pid then Without(ps[1..], pid)
    else [ps[0]] + Without(ps[1..], pid)
  }

  /** Deleting removes exactly the players under `pid` and keeps every other one. */
  lemma {:induction false} WithoutMembers(ps: seq<Player>, pid: int, p: Player)
    ensures p in Without(ps, pid) <==> p in ps && p.pid != pid
  {
    if ps != [] {
      WithoutMembers(ps[1..], pid, p);
      assert ps == [ps[0]] + ps[1..];
    }
  }

  /** Deleting keeps the pids distinct, and after it no player is stored under `pid`. */
  lemma {:induction false} WithoutDistinct(ps: seq<Player>, pid: int)
    requires DistinctPids(ps)
    ensures DistinctPids(Without(ps, pid))
    ensures Lookup(Without(ps, pid), pid) == None
  {
    if ps != [] {
      assert DistinctPids(ps[1..]) by {
        forall i, j | 0 <= i < j < |ps[1..]|
          ensures ps[1..][i].pid != ps[1..][j].pid
        {
          assert ps[1..][i] == ps[i + 1] && ps[1..][j] == ps[j + 1];
        }
      }
      WithoutDistinct(ps[1..], pid);
      if ps[0].pid != pid {
        var rest := Without(ps[1..], pid);
        forall k | 0 <= k < |rest|
          ensures rest[k].pid != ps[0].pid
        {
          WithoutMembers(ps[1..], pid, rest[k]);
          var m :| 0 <= m < |ps[1..]| && ps[1..][m] == rest[k];
          assert ps[m + 1] == rest[k];
        }
      }
    }
  }

  /** Deleting `pid` leaves the lookup of every other pid as it was. */
  lemma {:induction false} WithoutKeepsOthers(ps: seq<Player>, pid: int, other: int)
    requires other != pid
    ensures Lookup(Without(ps, pid), other) == Lookup(ps, other)
  {
    if ps != [] {
      WithoutKeepsOthers(ps[1..], pid, other);
      if ps[0].pid != pid {
        var rest := Without(ps[1..], pid);
        assert ([ps[0]] + rest)[0] == ps[0];
        assert ([ps[0]] + rest)[1..] == rest;
      }
    }
  }

  /** `broadcast`: one frame per reachable player, in map order. */
  function Fanout(ps: seq<Player>, msg: Outbound): seq<Frame>
    reads ps
  {
    FanoutPrefix(ps, |ps|, msg)
  }

  /** The frames `broadcast` has sent after visiting the first `n` players. */
  function FanoutPrefix(ps: seq<Player>, n: nat, msg: Outbound): seq<Frame>
    requires n <= |ps|
    reads ps
  {
    if n == 0 then [] else FanoutPrefix(ps, n - 1, msg) + ps[n - 1].Delivery(msg)
  }

  /** A broadcast reaches exactly the players that have a socket and are connected. */
  lemma {:induction false} FanoutPrefixTargets(ps: seq<Player>, n: nat, msg: Outbound, f: Frame)
    requires n <= |ps|
    ensures f in FanoutPrefix(ps, n, msg) <==>
      exists i :: 0 <= i < n && ps[i].Reachable() && f == Sent(ps[i].ws.value, msg)
  {
    if n > 0 {
      FanoutPrefixTargets(ps, n - 1, msg, f);
    }
  }

  lemma FanoutTargets(ps: seq<Player>, msg: Outbound, f: Frame)
    ensures f in Fanout(ps, msg) <==>
      exists i :: 0 <= i < |ps| && ps[i].Reachable() && f == Sent(ps[i].ws.value, msg)
  {
    FanoutPrefixTargets(ps, |ps|, msg, f);
  }

  /** `cleanup`'s player loop over the first `n` players: a close for every socket, connected or not. */
  function Closures(ps: seq<Player>, n: nat): seq<Frame>
    requires n <= |ps|
    reads ps
  {
    if n == 0 then []
    else
      var p := ps[n - 1];
      Closures(ps, n - 1) + (if p.ws.Some? then [Closed(p.ws.value, None, None)] else [])
  }

  /** Every socket a broadcast can reach is closed by cleanup. */
  lemma {:induction false} ClosuresCoverFanout(ps: seq<Player>, n: nat, msg: Outbound, s: Socket)
    requires n <= |ps|
    requires Sent(s, msg) in FanoutPrefix(ps, n, msg)
    ensures Closed(s, None, None) in Closures(ps, n)
  {
    if Sent(s, msg) in FanoutPrefix(ps, n - 1, msg) {
      ClosuresCoverFanout(ps, n - 1, msg, s);
    } else {
      assert ps[n - 1].Reachable() && ps[n - 1].ws.value == s;
    }
  }

  /** The player list sent to the host: each player's public view, in map order. */
  function Roster(ps: seq<Player>): (r: seq<PlayerSummary>)
    reads ps
    ensures |r| == |ps|
    ensures forall i :: 0 <= i < |ps| ==> r[i] == ps[i].ToJson()
  {
    if ps == [] then [] else [ps[0].ToJson()] + Roster(ps[1..])
  }

  /** `sendToHost`: one frame on the host socket when there is one. */
  function ToHost(hostWs: Option<Socket>, msg: Outbound): seq<Frame>
  {
    if hostWs.Some? then [Sent(hostWs.value, msg)] else []
  }

  class Room {
    const code: string
    const hostToken: string
    var hostWs: Option<Socket>
    var players: seq<Player>
    var gameState: Phase
    var buzzingEnabled: bool
    var currentBuzzer: Option<int>
    var nextPid: int

    /**
     * The room's invariant: the pid counter starts at 1, every stored pid
     * was handed out before, and no two players share a pid.
     */
    ghost predicate Valid()
      reads this
    {
      && nextPid >= 1
      && (forall i :: 0 <= i < |players| ==> 1 <= players[i].pid < nextPid)
      && DistinctPids(players)
    }

    constructor (code: string, hostToken: string)
      ensures this.code == code && this.hostToken == hostToken
      ensures hostWs == None && players == [] && gameState == Lobby
      ensures !buzzingEnabled && currentBuzzer == None && nextPid == 1
      ensures Valid()
    {
      this.code := code;
      this.hostToken := hostToken;
      hostWs := None;
      players := [];
      gameState := Lobby;
      buzzingEnabled := false;
      currentBuzzer := None;
      nextPid := 1;
    }

    method ConnectHost(ws: Socket)
      modifies this`hostWs
      ensures hostWs == Some(ws)
    {
      hostWs := Some(ws);
    }

    method DisconnectHost()
      modifies this`hostWs
      ensures hostWs == None
    {
      hostWs := None;
    }

    predicate IsHostConnected()
      reads this
    {
      hostWs.Some?
    }

    method SendToHost(msg: Outbound, net: Network)
      modifies net
      ensures net.log == old(net.log) + ToHost(hostWs, msg)
    {
      if hostWs.Some? {
        net.Send(hostWs.value, msg);
      }
    }

    /**
     * Hands out the next pid, stores a fresh player under it and returns it:
     * pids are 1, 2, 3, ... in call order and are never reused, even after
     * a removal.
     */
    method AddPlayer(name: string, token: string) returns (p: Player)
      requires Valid()
      modifies this`players, this`nextPid
      ensures Valid()
      ensures fresh(p)
      ensures p.pid == old(nextPid) && nextPid == old(nextPid) + 1
      ensures p.name == name && p.token == token
      ensures p.score == 0 && p.canBuzz && !p.connected && p.ws == None
      ensures players == old(players) + [p]
      ensures Lookup(players, p.pid) == Some(p)
    {
      var pid := nextPid;
      nextPid := nextPid + 1;
      p := new Player(pid, name, token);
      players := players + [p];
      LookupUnique(players, |players| - 1);
    }

    /** `players.get(pid)` */
    function GetPlayer(pid: int): (r: Option<Player>)
      reads this
      ensures r.Some? ==> r.value in players && r.value.pid == pid
      ensures r.None? <==> forall i :: 0 <= i < |players| ==> players[i].pid != pid
    {
      Lookup(players, pid)
    }

    /** The first player, in map order, whose token is `token`; None when no token matches. */
    method GetPlayerByToken(token: string) returns (r: Option<Player>)
      ensures r.Some? ==> exists i :: 0 <= i < |players| && players[i] == r.value && r.value.token == token
                                      && forall j :: 0 <= j < i ==> players[j].token != token
      ensures r.None? ==> forall i :: 0 <= i < |players| ==> players[i].token != token
    {
      var i := 0;
      while i < |players|
        invariant 0 <= i <= |players|
        invariant forall j :: 0 <= j < i ==> players[j].token != token
      {
        if players[i].token == token {
          return Some(players[i]);
        }
        i := i + 1;
      }
      return None;
    }

    /** Drops the player stored under `pid` (if any); everyone else stays, in order. */
    method RemovePlayer(pid: int)
      requires Valid()
      modifies this`players
      ensures Valid()
      ensures players == Without(old(players), pid)
      ensures Lookup(players, pid) == None
    {
      WithoutDistinct(players, pid);
      forall i | 0 <= i < |Without(players, pid)|
        ensures 1 <= Without(players, pid)[i].pid < nextPid
      {
        var q := Without(players, pid)[i];
        WithoutMembers(players, pid, q);
      }
      players := Without(players, pid);
    }

    /** Sends `msg` to every reachable player, in map order. */
    method Broadcast(msg: Outbound, net: Network)
      modifies net
      ensures net.log == old(net.log) + Fanout(players, msg)
    {
      var ps := players;
      var i := 0;
      while i < |ps|
        invariant 0 <= i <= |ps|
        invariant net.log == old(net.log) + FanoutPrefix(ps, i, msg)
      {
        if ps[i].ws.Some? && ps[i].connected {
          net.Send(ps[i].ws.value, msg);
        }
        i := i + 1;
      }
    }

    /** The reachable players first, then the host if connected. */
    method BroadcastToAll(msg: Outbound, net: Network)
      modifies net
      ensures net.log == old(net.log) + Fanout(players, msg) + ToHost(hostWs, msg)
    {
      Broadcast(msg, net);
      SendToHost(msg, net);
    }

    method SendPlayerList(net: Network)
      modifies net
      ensures net.log == old(net.log) + ToHost(hostWs, PlayerList(Roster(players)))
    {
      SendToHost(PlayerList(Roster(players)), net);
    }

    method StartGame(net: Network)
      modifies this`gameState, net
      ensures gameState == Playing
      ensures net.log == old(net.log) + Fanout(players, GameStarted) + ToHost(hostWs, GameStarted)
    {
      gameState := Playing;
      BroadcastToAll(GameStarted, net);
    }

    method EndGame(net: Network)
      modifies this`gameState, net
      ensures gameState == Ended
      ensures net.log == old(net.log) + Fanout(players, GameEnded) + ToHost(hostWs, GameEnded)
    {
      gameState := Ended;
      BroadcastToAll(GameEnded, net);
    }

    /**
     * Opens the buzzers: the gate is up, nobody holds the buzzer, and every
     * player may buzz again; scores and connections are untouched.
     */
    method EnableBuzzing(net: Network)
      modifies this`buzzingEnabled, this`currentBuzzer, players, net
      ensures buzzingEnabled && currentBuzzer == None
      ensures forall i :: 0 <= i < |players| ==> players[i].canBuzz
      ensures forall i :: 0 <= i < |players| ==>
        && players[i].score == old(players[i].score)
        && players[i].connected == old(players[i].connected)
        && players[i].ws == old(players[i].ws)
      ensures net.log == old(net.log) + Fanout(players, BuzzEnabled) + ToHost(hostWs, BuzzEnabled)
    {
      buzzingEnabled := true;
      currentBuzzer := None;
      var i := 0;
      while i < |players|
        invariant 0 <= i <= |players|
        invariant forall j :: 0 <= j < i ==> players[j].canBuzz
        invariant forall j :: 0 <= j < |players| ==>
          && players[j].score == old(players[j].score)
          && players[j].connected == old(players[j].connected)
          && players[j].ws == old(players[j].ws)
        invariant net.log == old(net.log)
        invariant buzzingEnabled && currentBuzzer == None
      {
        players[i].ResetBuzz();
        i := i + 1;
      }
      BroadcastToAll(BuzzEnabled, net);
    }

    method DisableBuzzing(net: Network)
      modifies this`buzzingEnabled, net
      ensures !buzzingEnabled
      ensures net.log == old(net.log) + Fanout(players, BuzzDisabled) + ToHost(hostWs, BuzzDisabled)
    {
      buzzingEnabled := false;
      BroadcastToAll(BuzzDisabled, net);
    }

    /**
     * A buzz from `pid` wins exactly when the pid is known, the gate is up and
     * the player may buzz. A winning buzz takes the buzzer and closes the
     * gate, so no later buzz wins until the gate is reopened; a losing one
     * changes nothing.
     */
    method HandleBuzz(pid: int, net: Network) returns (won: bool)
      modifies this`currentBuzzer, this`buzzingEnabled, net
      ensures won <==> old(buzzingEnabled) && Lookup(players, pid).Some? && Lookup(players, pid).value.canBuzz
      ensures won ==> currentBuzzer == Some(pid) && !buzzingEnabled
      ensures won ==> (net.log == old(net.log)
                         + ToHost(hostWs, Buzzed(pid, Lookup(players, pid).value.name))
                         + Fanout(players, BuzzDisabled) + ToHost(hostWs, BuzzDisabled))
      ensures !won ==> currentBuzzer == old(currentBuzzer) && buzzingEnabled == old(buzzingEnabled)
      ensures !won ==> net.log == old(net.log)
    {
      var player := Lookup(players, pid);
      if player.None? {
        return false;
      }
      if !buzzingEnabled || !player.value.canBuzz {
        return false;
      }
      currentBuzzer := Some(pid);
      buzzingEnabled := false;
      SendToHost(Buzzed(player.value.pid, player.value.name), net);
      BroadcastToAll(BuzzDisabled, net);
      return true;
    }

    /** The player holding the buzzer: None when there is no buzzer or it names nobody. */
    function Buzzer(): Option<Player>
      reads this
    {
      if currentBuzzer.None? then None else Lookup(players, currentBuzzer.value)
    }

    /**
     * The host's verdict on the current buzzer. Nothing happens without a
     * buzzer or when it names nobody. A right answer adds `pointValue` to the
     * buzzer's score; a wrong one leaves the score, takes the player's buzz
     * away and frees the buzzer, but leaves the gate closed. The frame says
     * that no other player is touched.
     */
    method HandleHostChecked(correct: bool, pointValue: int, net: Network)
      modifies this`currentBuzzer, net, if Buzzer().Some? then {Buzzer().value} else {}
      ensures old(Buzzer()).None? ==> currentBuzzer == old(currentBuzzer) && net.log == old(net.log)
      ensures old(Buzzer()).Some? ==>
        var p := old(Buzzer()).value;
        p.connected == old(p.connected) && p.ws == old(p.ws)
      ensures correct && old(Buzzer()).Some? ==>
        var p := old(Buzzer()).value;
        p.score == old(p.score) + pointValue && p.canBuzz == old(p.canBuzz) && currentBuzzer == old(currentBuzzer)
      ensures correct && old(Buzzer()).Some? ==>
        var p := old(Buzzer()).value;
        net.log == old(net.log)
          + Fanout(players, AnswerResult(p.pid, true, p.score))
          + ToHost(hostWs, AnswerResult(p.pid, true, p.score))
          + ToHost(hostWs, PlayerList(Roster(players)))
      ensures !correct && old(Buzzer()).Some? ==>
        var p := old(Buzzer()).value;
        p.score == old(p.score) && !p.canBuzz && currentBuzzer == None
      ensures !correct && old(Buzzer()).Some? ==>
        var p := old(Buzzer()).value;
        net.log == old(net.log)
          + Fanout(players, AnswerResult(p.pid, false, p.score))
          + ToHost(hostWs, AnswerResult(p.pid, false, p.score))
    {
      if currentBuzzer.None? {
        return;
      }
      var player := Lookup(players, currentBuzzer.value);
      if player.None? {
        return;
      }
      if correct {
        AcceptAnswer(player.value, pointValue, net);
      } else {
        RejectAnswer(player.value, net);
      }
    }

    /** The right-answer branch of `handleHostChecked`: credit, announce, refresh the host's list. */
    method AcceptAnswer(p: Player, pointValue: int, net: Network)
      modifies p`score, net
      ensures p.score == old(p.score) + pointValue
      ensures net.log == old(net.log)
        + Fanout(players, AnswerResult(p.pid, true, p.score))
        + ToHost(hostWs, AnswerResult(p.pid, true, p.score))
        + ToHost(hostWs, PlayerList(Roster(players)))
    {
      p.AddScore(pointValue);
      BroadcastToAll(AnswerResult(p.pid, true, p.score), net);
      SendPlayerList(net);
    }

    /** The wrong-answer branch: the player loses its buzz and the buzzer is freed; the gate stays shut. */
    method RejectAnswer(p: Player, net: Network)
      modifies p`canBuzz, this`currentBuzzer, net
      ensures !p.canBuzz && currentBuzzer == None
      ensures net.log == old(net.log)
        + Fanout(players, AnswerResult(p.pid, false, p.score))
        + ToHost(hostWs, AnswerResult(p.pid, false, p.score))
    {
      p.DisableBuzz();
      BroadcastToAll(AnswerResult(p.pid, false, p.score), net);
      currentBuzzer := None;
    }

    /** What `cleanup` puts on the wire: a close for every player socket, then for the host's. */
    function CleanupFrames(): seq<Frame>
      reads this, players
    {
      Closures(players, |players|) + (if hostWs.Some? then [Closed(hostWs.value, None, None)] else [])
    }

    /** Closes every player socket (connected or not), then the host socket. */
    method Cleanup(net: Network)
      modifies net
      ensures net.log == old(net.log) + CleanupFrames()
    {
      var i := 0;
      while i < |players|
        invariant 0 <= i <= |players|
        invariant net.log == old(net.log) + Closures(players, i)
      {
        if players[i].ws.Some? {
          net.Close(players[i].ws.value, None, None);
        }
        i := i + 1;
      }
      if hostWs.Some? {
        net.Close(hostWs.value, None, None);
      }
    }
  }
}
