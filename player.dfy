/**
 * A player of a TypeScript room (apps/node_server/src/game/Player.ts): an
 * object whose score, buzz permission and connection change in place.
 */
module PlayerObject {
  import opened Wrappers
  import opened Net

  class Player {
    // Assigned once by the constructor and never reassigned.
    const pid: int
    const name: string
    const token: string

    var score: int
    var canBuzz: bool
    var connected: bool
    var ws: Option<Socket>

    /** A player is connected exactly when it holds a socket. */
    ghost predicate Valid()
      reads this
    {
      connected == ws.Some?
    }

    constructor (pid: int, name: string, token: string)
      ensures this.pid == pid && this.name == name && this.token == token
      ensures score == 0 && canBuzz && !connected && ws == None
      ensures Valid()
    {
      this.pid := pid;
      this.name := name;
      this.token := token;
      score := 0;
      canBuzz := true;
      connected := false;
      ws := None;
    }

    /** Binds the player to a (new) socket; the previous one is simply forgotten. */
    method Connect(ws: Socket)
      modifies this`ws, this`connected
      ensures this.ws == Some(ws) && connected
      ensures Valid()
    {
      this.ws := Some(ws);
      connected := true;
    }

    method Disconnect()
      modifies this`ws, this`connected
      ensures ws == None && !connected
      ensures Valid()
    {
      ws := None;
      connected := false;
    }

    /** The guard of `send`: a socket is present and the player is connected. */
    predicate Reachable()
      reads this
    {
      ws.Some? && connected
    }

    /** What `send` puts on the wire: one frame on the player's socket when reachable, else nothing. */
    function Delivery(msg: Outbound): seq<Frame>
      reads this
    {
      if Reachable() then [Sent(ws.value, msg)] else []
    }

    /** Delivers `msg` on the player's socket when it is reachable, and does nothing otherwise. */
    method Send(msg: Outbound, net: Network)
      modifies net
      ensures net.log == old(net.log) + Delivery(msg)
    {
      if ws.Some? && connected {
        net.Send(ws.value, msg);
      }
    }

    /** Adds exactly `points`; the frame leaves every other field as it was. */
    method AddScore(points: int)
      modifies this`score
      ensures score == old(score) + points
    {
      score := score + points;
    }

    method ResetBuzz()
      modifies this`canBuzz
      ensures canBuzz
    {
      canBuzz := true;
    }

    method DisableBuzz()
      modifies this`canBuzz
      ensures !canBuzz
    {
      canBuzz := false;
    }

    /** The public view of a player: pid, name and score, and never the token. */
    function ToJson(): (s: PlayerSummary)
      reads this
      ensures s.pid == pid && s.name == name && s.score == score
    {
      PlayerSummary(pid, name, score)
    }
  }
}
