/**
 * The room of the Rust server (apps/server/src/game.rs): its constructor,
 * host handling, `add_player`, and the transition table of `update`.
 *
 * `update` is modelled as written. The heartbeat handlers it calls
 * (`on_know_dohb_recv`, `on_latencyhb`) are not part of this model, so a
 * heartbeat message leaves the room as it is; the only effect kept is the
 * panic of the `expect` that precedes `on_latencyhb`.
 */
module RustGame {
  import opened Wrappers
  import opened RustWire
  import opened RustPlayer

  /** `HostEntry`: the host's pid and the sending half of its channel. */
  datatype HostEntry = HostEntry(pid: u32, sender: ChannelId)

  /** How `update` ends: `Ok(())`, or a panic with its message. */
  datatype Outcome = Ok | Panicked(message: string)

  const TodoMessage: string := "not yet implemented"
  const LatencyTooLarge: string := "LatencyOfHeartbeat latency of heartbeat exceeds 32-bit integer limit"

  /** `players.iter().position(|p| p.player.pid == pid)`: the first entry with that pid. */
  function Position(players: seq<PlayerEntry>, pid: PlayerId): (r: Option<nat>)
    ensures r.Some? ==>
      && r.value < |players| && players[r.value].player.pid == pid
      && forall j :: 0 <= j < r.value ==> players[j].player.pid != pid
    ensures r.None? <==> forall j :: 0 <= j < |players| ==> players[j].player.pid != pid
  {
    if players == [] then None
    else if players[0].player.pid == pid then Some(0)
    else match Position(players[1..], pid)
      case None => None
      case Some(k) => Some(k + 1)
  }

  /** The entry of the sender, when there is a sender and it has an entry. */
  function OwnEntry(players: seq<PlayerEntry>, pid: Option<PlayerId>): Option<nat>
  {
    if pid.None? then None else Position(players, pid.value)
  }

  /** `players.iter().all(|player| !player.did_buzz())` */
  predicate NoneBuzzed(players: seq<PlayerEntry>)
  {
    forall i :: 0 <= i < |players| ==> !DidBuzz(players[i])
  }

  /**
   * The panic `update` ends in, if any: `todo!()` for `BuzzDisable`, and the
   * failed conversion of a latency above the 32-bit range when the sender
   * has an entry.
   */
  function Panic(msg: WsMsg, players: seq<PlayerEntry>, pid: Option<PlayerId>): Option<string>
  {
    match msg
    case BuzzDisable => Some(TodoMessage)
    case LatencyOfHeartbeat(_, tLat) =>
      if OwnEntry(players, pid).Some? && tLat as int > U32Max then Some(LatencyTooLarge) else None
    case _ => None
  }

  /** The state after `update` handles `msg` without panicking. */
  function Transition(state: GameState, msg: WsMsg, pid: Option<PlayerId>, players: seq<PlayerEntry>, questionCount: nat): GameState
  {
    match msg
    case HostChecked(correct) =>
      if !correct && !NoneBuzzed(players) then AwaitingBuzz
      else if questionCount == 0 then GameEnd
      else Selection
    case StartGame => Selection
    case EndGame => GameEnd
    case BuzzEnable => AwaitingBuzz
    case Buzz => Answer(pid)
    case _ => state
  }

  class Room {
    const code: string
    const hostToken: string
    var state: GameState
    var host: Option<HostEntry>
    var players: seq<PlayerEntry>
    var questions: seq<string>

    /** `Room::new`: in the default state `Start`, without host, players or questions. */
    constructor (code: string, hostToken: string)
      ensures this.code == code && this.hostToken == hostToken
      ensures state == Start && host == None && players == [] && questions == []
    {
      this.code := code;
      this.hostToken := hostToken;
      state := Start;
      host := None;
      players := [];
      questions := [];
    }

    /** `set_host`: replaces any previous host. */
    method SetHost(h: HostEntry)
      modifies this`host
      ensures host == Some(h)
    {
      host := Some(h);
    }

    /** `verify_host_token` */
    function VerifyHostToken(token: string): (ok: bool)
      ensures ok <==> token == hostToken
    {
      hostToken == token
    }

    /**
     * `add_player`: appends one entry for a fresh player with score 0 that
     * has not buzzed; earlier entries stay as they were, in order.
     */
    method AddPlayer(pid: PlayerId, name: string, sender: ChannelId)
      modifies this`players
      ensures players == old(players) + [NewEntry(Player(pid, name, 0, false), sender)]
    {
      var player := Player(pid, name, 0, false);
      players := players + [NewEntry(player, sender)];
    }

    /**
     * `update`: a `PlayerList` is passed on to the host, if there is one; the
     * other messages set the state as `Transition` says, except that
     * `BuzzDisable` and an oversized latency panic first. The players, the
     * questions, the code and the host token never change.
     */
    method Update(msg: WsMsg, pid: Option<PlayerId>, channels: Channels) returns (r: Outcome)
      modifies this`state, channels
      ensures Panic(msg, players, pid).Some? ==>
        r == Panicked(Panic(msg, players, pid).value) && state == old(state) && channels.log == old(channels.log)
      ensures Panic(msg, players, pid).None? ==>
        && r == Ok
        && state == Transition(old(state), msg, pid, players, |questions|)
        && channels.log == old(channels.log) + (if msg.PlayerList? && host.Some? then [(host.value.sender, msg)] else [])
    {
      var ownEntry := OwnEntry(players, pid);
      match msg {
        case PlayerList(_) =>
          if host.Some? {
            channels.Send(host.value.sender, msg);
          }
        case HostChecked(correct) =>
          if !correct {
            if NoneBuzzed(players) {
              if |questions| == 0 {
                state := GameEnd;
              } else {
                state := Selection;
              }
            } else {
              state := AwaitingBuzz;
            }
          } else {
            if |questions| == 0 {
              state := GameEnd;
            } else {
              state := Selection;
            }
          }
        case StartGame =>
          state := Selection;
        case EndGame =>
          state := GameEnd;
        case BuzzEnable =>
          state := AwaitingBuzz;
        case BuzzDisable =>
          return Panicked(TodoMessage);
        case Buzz =>
          state := Answer(pid);
        case Heartbeat(_, _) =>
        case LatencyOfHeartbeat(_, tLat) =>
          if ownEntry.Some? && tLat as int > U32Max {
            return Panicked(LatencyTooLarge);
          }
        case _ =>
      }
      return Ok;
    }
  }

  // ---------------------------------------------------------------------------
  // Properties of the transition table

  /** The host's lobby commands ignore the state they arrive in. */
  lemma CommandsIgnorePriorState(s: GameState, t: GameState, pid: Option<PlayerId>, players: seq<PlayerEntry>, n: nat)
    ensures Transition(s, StartGame, pid, players, n) == Transition(t, StartGame, pid, players, n) == Selection
    ensures Transition(s, EndGame, pid, players, n) == Transition(t, EndGame, pid, players, n) == GameEnd
    ensures Transition(s, BuzzEnable, pid, players, n) == Transition(t, BuzzEnable, pid, players, n) == AwaitingBuzz
  {
  }

  /** A buzz always moves to `Answer` with the sender, from any state and whoever sent it. */
  lemma BuzzAnswers(s: GameState, pid: Option<PlayerId>, players: seq<PlayerEntry>, n: nat)
    ensures Transition(s, Buzz, pid, players, n) == Answer(pid)
  {
  }

  /** A correct answer ends the game exactly when no question is left, and otherwise returns to selection. */
  lemma CorrectAnswer(s: GameState, pid: Option<PlayerId>, players: seq<PlayerEntry>, n: nat)
    ensures Transition(s, HostChecked(true), pid, players, n) == GameEnd <==> n == 0
    ensures Transition(s, HostChecked(true), pid, players, n) == (if n == 0 then GameEnd else Selection)
  {
  }

  /**
   * A wrong answer waits for another buzz exactly when some player has
   * buzzed; otherwise it ends the game or returns to selection like a
   * correct one.
   */
  lemma WrongAnswer(s: GameState, pid: Option<PlayerId>, players: seq<PlayerEntry>, n: nat)
    ensures Transition(s, HostChecked(false), pid, players, n) == AwaitingBuzz <==> !NoneBuzzed(players)
    ensures NoneBuzzed(players) ==>
      Transition(s, HostChecked(false), pid, players, n) == Transition(s, HostChecked(true), pid, players, n)
  {
  }

  /** Messages outside the table leave the state alone. */
  lemma OthersKeepState(s: GameState, msg: WsMsg, pid: Option<PlayerId>, players: seq<PlayerEntry>, n: nat)
    requires !(msg.HostChecked? || msg.StartGame? || msg.EndGame? || msg.BuzzEnable? || msg.Buzz?)
    ensures Transition(s, msg, pid, players, n) == s
  {
  }

  /** `Position` finds a pid exactly when some entry carries it. */
  lemma {:induction false} PositionFinds(players: seq<PlayerEntry>, pid: PlayerId, i: nat)
    requires i < |players| && players[i].player.pid == pid
    ensures Position(players, pid).Some? && Position(players, pid).value <= i
  {
  }

  // ---------------------------------------------------------------------------
  // Nobody ever buzzes

  /** A room in which no player record has its `buzzed` flag set. */
  ghost predicate NobodyBuzzed(r: Room)
    reads r
  {
    NoneBuzzed(r.players)
  }

  /** Adding players keeps every `buzzed` flag down: `add_player` always passes `false`. */
  lemma {:induction false} AddKeepsNobodyBuzzed(players: seq<PlayerEntry>, pid: PlayerId, name: string, sender: ChannelId)
    requires NoneBuzzed(players)
    ensures NoneBuzzed(players + [NewEntry(Player(pid, name, 0, false), sender)])
  {
    var ps := players + [NewEntry(Player(pid, name, 0, false), sender)];
    forall i | 0 <= i < |ps|
      ensures !DidBuzz(ps[i])
    {
      if i < |players| {
        assert ps[i] == players[i];
      }
    }
  }

  /** One thing that happens to a room: a player joins, or a message is handled by `update`. */
  datatype BuildStep =
    | Join(pid: PlayerId, name: string, channel: ChannelId)
    | Deliver(msg: WsMsg, sender: Option<PlayerId>)

  /** How many of the steps are joins. */
  function JoinCount(steps: seq<BuildStep>): nat
  {
    if steps == [] then 0
    else JoinCount(steps[..|steps| - 1]) + (if steps[|steps| - 1].Join? then 1 else 0)
  }

  /**
   * Every room the code can build has no player that buzzed: the constructor
   * starts with none, `add_player` adds only unbuzzed entries, and `update`
   * never touches the players, in whatever order joins and messages come.
   * A panic in `update` ends the run at that step. So in every reachable
   * room a wrong answer never waits for another buzz.
   */
  method BuildAndUpdate(code: string, hostToken: string, steps: seq<BuildStep>, channels: Channels)
    returns (room: Room, done: nat)
    modifies channels
    ensures done <= |steps|
    ensures done < |steps| ==> steps[done].Deliver?
    ensures NobodyBuzzed(room)
    ensures |room.players| == JoinCount(steps[..done])
  {
    room := new Room(code, hostToken);
    done := 0;
    while done < |steps|
      invariant 0 <= done <= |steps|
      invariant NoneBuzzed(room.players) && |room.players| == JoinCount(steps[..done])
    {
      assert steps[..done + 1][..done] == steps[..done];
      match steps[done] {
        case Join(pid, name, channel) =>
          AddKeepsNobodyBuzzed(room.players, pid, name, channel);
          room.AddPlayer(pid, name, channel);
        case Deliver(msg, sender) =>
          var outcome := room.Update(msg, sender, channels);
          if outcome.Panicked? {
            return;
          }
      }
      done := done + 1;
    }
  }

  /** Hence, with the players the code can build, `HostChecked { correct: false }` never reaches `AwaitingBuzz`. */
  lemma WrongAnswerNeverWaits(s: GameState, pid: Option<PlayerId>, players: seq<PlayerEntry>, n: nat)
    requires NoneBuzzed(players)
    ensures Transition(s, HostChecked(false), pid, players, n) != AwaitingBuzz
  {
  }
}
