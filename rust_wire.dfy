/**
 * The values the Rust server passes around (apps/server/src/ws_msg.rs,
 * apps/server/src/player.rs, and the `GameState` enum of
 * apps/server/src/game.rs): fixed-width integers, the player record, the
 * game state, the question records, and the message enum. A message is kept
 * as a value; its serde encoding is not modelled.
 */
module RustWire {
  import opened Wrappers

  const U32Max: int := 0xFFFF_FFFF

  newtype u32 = x: int | 0 <= x <= 0xFFFF_FFFF
  newtype i32 = x: int | -0x8000_0000 <= x < 0x8000_0000
  newtype u64 = x: int | 0 <= x < 0x1_0000_0000_0000_0000

  type PlayerId = u32
  type HeartbeatId = u32
  /** Milliseconds since the Unix epoch, or a difference of two such. */
  type UnixMs = u64

  /** `Player`: `Player::new` stores exactly the four values it is given. */
  datatype Player = Player(pid: PlayerId, name: string, score: i32, buzzed: bool)

  /**
   * The question records that `game_file.rs` builds (their declaration in the
   * `game` module is not part of this model; the fields are the ones built).
   */
  datatype Question = Question(question: string, answer: string, value: u32, answered: bool)
  datatype Category = Category(title: string, questions: seq<Question>)

  /** `GameState`, whose `Default` is `Start`. */
  datatype GameState =
    | Start
    | Selection
    | QuestionReading
    | Answer(buzzer: Option<PlayerId>)
    | AwaitingBuzz
    | GameEnd

  /** `WsMsg` */
  datatype WsMsg =
    | Witness(msg: WsMsg)
    | PlayerList(players: seq<Player>)
    | NewPlayer(pid: PlayerId, token: string)
    | GameStateMsg(state: GameState, categories: seq<Category>, players: seq<Player>,
                   currentQuestion: Option<(nat, nat)>, currentBuzzer: Option<PlayerId>)
    | PlayerState(pid: PlayerId, buzzed: bool, score: i32, canBuzz: bool)
    | StartGame
    | EndGame
    | HostChoice(categoryIndex: nat, questionIndex: nat)
    | HostReady
    | HostChecked(correct: bool)
    | BuzzEnable
    | BuzzDisable
    | Buzz
    | Buzzed(pid: PlayerId, name: string)
    | DoHeartbeat(hbid: HeartbeatId, tSent: UnixMs)
    | Heartbeat(hbid: HeartbeatId, tDohbRecv: UnixMs)
    | GotHeartbeat(hbid: HeartbeatId)
    | LatencyOfHeartbeat(hbid: HeartbeatId, tLat: UnixMs)

  /** The sending half of a channel, known by an identity. */
  datatype ChannelId = ChannelId(id: nat)

  /** Every message sent on a channel, in order. */
  class Channels {
    var log: seq<(ChannelId, WsMsg)>

    constructor ()
      ensures log == []
    {
      log := [];
    }

    /** `sender.send(msg.clone()).await` */
    method Send(to: ChannelId, msg: WsMsg)
      modifies this
      ensures log == old(log) + [(to, msg)]
    {
      log := log + [(to, msg)];
    }
  }
}
