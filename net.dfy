/**
 * The boundary of the TypeScript server (apps/node_server/src/types.ts):
 * sockets, the messages exchanged on them, and the network as an outbox.
 * A message is kept as a value; its JSON encoding is not modelled.
 */
module Net {
  import opened Wrappers
  import GameMachine

  /** A WebSocket connection, known by an identity that the server never inspects. */
  datatype Socket = Socket(id: nat)

  /** What `Player.toJSON` exposes of a player. */
  datatype PlayerSummary = PlayerSummary(pid: int, name: string, score: int)

  /** Messages the server sends. */
  datatype Outbound =
    | Witness(pid: int, msg: string)
    | NewPlayer(pid: int, token: string)
    | PlayerList(players: seq<PlayerSummary>)
    | DoHeartbeat(hbid: int, tSent: int)
    | GotHeartbeat(hbid: int)
    | BuzzEnabled
    | BuzzDisabled
    | GameStarted
    | GameEnded
    | Buzzed(pid: int, name: string)
    | AnswerResult(pid: int, correct: bool, newScore: int)
    | GameState(snapshot: GameMachine.GameStateSnapshot)

  /** Messages the server receives (after a successful parse). */
  datatype Inbound =
    | StartGame
    | EndGame
    | BuzzEnable
    | BuzzDisable
    | Buzz
    | HostChecked(correct: bool)
    | HostChoice(categoryIndex: int, questionIndex: int)
    | HostReady
    | Heartbeat(hbid: int)
    | LatencyOfHeartbeat(hbid: int, tLat: int)

  /** One action on the wire: a text frame, or closing a socket (with an optional code and reason). */
  datatype Frame =
    | Sent(to: Socket, msg: Outbound)
    | Closed(to: Socket, code: Option<int>, reason: Option<string>)

  /** Everything the server has done on its sockets, in order. */
  class Network {
    var log: seq<Frame>

    constructor ()
      ensures log == []
    {
      log := [];
    }

    /** `ws.send(JSON.stringify(msg))` */
    method Send(to: Socket, msg: Outbound)
      modifies this
      ensures log == old(log) + [Sent(to, msg)]
    {
      log := log + [Sent(to, msg)];
    }

    /** `ws.close(code, reason)` */
    method Close(to: Socket, code: Option<int>, reason: Option<string>)
      modifies this
      ensures log == old(log) + [Closed(to, code, reason)]
    {
      log := log + [Closed(to, code, reason)];
    }
  }
}
