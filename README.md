# Buzzer trivia server — a Dafny model

This project models the core of a buzzer-trivia server. A host opens a room
and shares its six-letter code. Players join over WebSockets. The host picks
a question from a board of categories, enables buzzing, and the first eligible
player to buzz answers. The host then marks that answer right or wrong.

The repository holds two servers, modelled separately:

- **The TypeScript server** (`apps/node_server`):
  - the trivia state machine (`gameMachine.ts`), modelled as a datatype of snapshots and a transition function;
  - the `Room`, `Player` and `RoomManager` classes, modelled as Dafny classes whose methods update their fields;
  - the WebSocket handshake and dispatch (`handler.ts`).
- **The unfinished Rust server** (`apps/server`):
  - the room and its `update` transition table (`game.rs`);
  - the player entries (`player.rs`);
  - the game-file conversion (`game_file.rs`).

Modules, one per source file:

| module | file | models |
|---|---|---|
| `GameMachine`, `GameMachineProperties` | game_machine.dfy, game_machine_props.dfy | `gameMachine.ts` |
| `Net` | net.dfy | sockets and messages of `types.ts`; the network as an outbox of frames |
| `PlayerObject` | player.dfy | `Player.ts` |
| `RoomObject` | room.dfy | `Room.ts` |
| `RoomRegistry` | room_manager.dfy | `RoomManager.ts` |
| `Handshake` | handler.dfy | `handler.ts` |
| `Text`, `JsParseInt` | text.dfy, parse_int.dfy | ASCII case mapping, and the `parseInt(s, 10)` the handshake uses |
| `RustWire`, `RustPlayer`, `RustGame`, `GameFile` | rust_wire.dfy, rust_player.dfy, rust_game.dfy, game_file.dfy | `ws_msg.rs`, `player.rs`, `game.rs`, `game_file.rs` |

Representation choices:

- **Players map.** The TypeScript `players: Map<number, Player>` is a sequence of `Player` objects in insertion order, keyed by each player's constant `pid`. `Room.Valid()` keeps the pids distinct and below `nextPid`.
- **Outbox.** Every `ws.send` and `ws.close` appends a frame to `Network.log`. Every Rust channel send appends to `Channels.log`. A message is kept as a value: its JSON or serde encoding is not modelled.
- **Numbers.** JavaScript numbers are unbounded integers. The Rust `u32`, `i32` and `u64` are range-limited newtypes.
- **Randomness.** The draws of `Math.random()` are an input `draw(attempt, index)` in [0, 1). Tokens from `crypto.randomUUID()` are string inputs.
- **Calls the handler makes that are outside this model.** These are the room's game actor, `handleHostCorrect`, `handleHostIncorrect`, `handleHostChoice`, `handleHostReady`, `handlePlayerBuzz` and `sendGameStateToHost`.
  - The dispatch methods return the `GameMachine.Event` they would hand over.
  - Whether `handlePlayerBuzz` succeeded is an input.
  - The actor's context is an input.

Four behaviours a reader might expect are not in the code, and the model follows the code:

- A wrong answer never deducts points; only `awardPoints` changes a score.
- The handshake has no "token only" reconnect. A token that is neither the host token nor paired with a `playerID` falls through to the `playerName` branch (`Handshake.TokenAloneIsNoReconnect`).
- `Room.handleHostChecked(false)` clears `currentBuzzer` but does not set `buzzingEnabled` again, although the comment at `Room.ts:171` speaks of re-enabling buzzing for the other players.
- In the Rust `update`, a wrong answer waits for another buzz only when some player has buzzed. The comment at `game.rs:71` asks whether all players have buzzed, but the code tests `all(|player| !player.did_buzz())`, that is, whether nobody has. Since nothing sets a `buzzed` flag, a wrong answer never waits (`RustGame.WrongAnswerNeverWaits`).

## Model

| member | source | states |
|---|---|---|
| GameMachine.HasUnansweredIff | apps/node_server/src/game/gameMachine.ts:50 | a question list has an unanswered question exactly when some index holds one with `answered == false` |
| GameMachine.HasQuestionsRemainingIff | apps/node_server/src/game/gameMachine.ts:48-52 | `hasQuestionsRemaining` is true exactly when some category holds an unanswered question |
| GameMachine.EligiblePlayersMembers | apps/node_server/src/game/gameMachine.ts:56-61 | a player is eligible exactly when it is one of the players and its pid is not excluded |
| GameMachine.EligiblePlayersAppend | apps/node_server/src/game/gameMachine.ts:56-61 | the filter keeps the original order: it distributes over concatenation |
| GameMachine.NoEligibleIff | apps/node_server/src/game/gameMachine.ts:74-88 | `allPlayersBuzzed` (no eligible player) holds exactly when every player's pid is excluded, and `playersCanStillBuzz` is its negation |
| GameMachine.SnapshotRoundTrip | apps/node_server/src/game/gameMachine.ts:266-286 | the snapshot sent to the host, with its state name, determines the machine's state and context, except for the excluded players it leaves out |
| GameMachine.CreateGameStateSnapshot | apps/node_server/src/game/gameMachine.ts:275-286 | the snapshot for the host; `GameMachine.SnapshotRoundTrip` shows it keeps state, board, players, question and buzzer |
| GameMachine.QuestionsRemain | apps/node_server/src/game/gameMachine.ts:71 | true exactly when some category holds an unanswered question |
| GameMachine.NoQuestionsRemain | apps/node_server/src/game/gameMachine.ts:72-73 | true exactly when no category holds an unanswered question |
| GameMachine.PlayersCanStillBuzz | apps/node_server/src/game/gameMachine.ts:74-81 | true exactly when some player's pid is not excluded |
| GameMachine.AllPlayersBuzzed | apps/node_server/src/game/gameMachine.ts:82-88 | true exactly when every player's pid is excluded |
| GameMachine.SelectQuestion | apps/node_server/src/game/gameMachine.ts:91-98 | the action of `HOST_CHOICE`; `GameMachineProperties.HostChoiceEffect` and `AfterHostChoiceAllEligible` state that it opens the pair with no buzzer and every player eligible |
| GameMachine.RecordBuzz | apps/node_server/src/game/gameMachine.ts:99-104 | the buzzer becomes the buzzing pid, as `GameMachineProperties.PlayerBuzzEffect` states |
| GameMachine.AwardPoints | apps/node_server/src/game/gameMachine.ts:105-141 | `GameMachineProperties.AwardPointsScores` states it: only the buzzer gains the question's value, and the question is marked |
| GameMachine.MarkQuestionAnswered | apps/node_server/src/game/gameMachine.ts:142-157 | `GameMachineProperties.MarkAnsweredEffect` states it: only the current question's flag is set |
| GameMachine.ExcludeCurrentBuzzer | apps/node_server/src/game/gameMachine.ts:158-163 | the buzzer joins the excluded players, so `GameMachineProperties.BuzzerNoLongerEligible` holds |
| GameMachine.ClearCurrentBuzzer | apps/node_server/src/game/gameMachine.ts:164-166 | only the buzzer is cleared, as `GameMachineProperties.HostIncorrectEffect` states |
| GameMachine.ClearCurrentQuestion | apps/node_server/src/game/gameMachine.ts:167-171 | question, buzzer and exclusions are cleared, as `GameMachineProperties.HostCorrectEffect` states |
| GameMachine.AddPlayerAction | apps/node_server/src/game/gameMachine.ts:172-180 | `GameMachineProperties.AddPlayerEffect` states it |
| GameMachine.WithoutPid | apps/node_server/src/game/gameMachine.ts:184 | never longer than the input, and every kept player is an input player with another pid; `GameMachineProperties.WithoutPidMembers` gives the converse |
| GameMachine.RemovePlayerAction | apps/node_server/src/game/gameMachine.ts:181-186 | `GameMachineProperties.RemovePlayerEffect` states it |
| GameMachine.Step | apps/node_server/src/game/gameMachine.ts:198-262 | the transition table: `gameEnd` takes no event; `questionReading` is entered only from `selection`, `answer` only from `waitingForBuzz`, `gameEnd` only from `answer`; and an event that keeps the state changes nothing unless it adds or removes a player |
| GameMachineProperties.EvolvesTransitive | apps/node_server/src/game/gameMachine.ts:127-157 | "same board with answered flags only going from false to true" composes |
| GameMachineProperties.MarkAnsweredEffect | apps/node_server/src/game/gameMachine.ts:127-157 | marking a question sets only the targeted `answered` flag, leaves every other question and category as it was, and an out-of-range pair changes nothing |
| GameMachineProperties.MarkAnsweredAt | apps/node_server/src/game/gameMachine.ts:142-156 | marking an existing question is a point update of that one question |
| GameMachineProperties.StepBoard | apps/node_server/src/game/gameMachine.ts:198-262 | one event leaves the board as it was or marks exactly the current question answered |
| GameMachineProperties.StepCorrectedBoard | apps/node_server/src/game/gameMachine.ts:228-262 | the same for the corrected machine |
| GameMachineProperties.StepEvolves | apps/node_server/src/game/gameMachine.ts:127-157 | no event sets an `answered` flag back to false or changes anything else on the board |
| GameMachineProperties.RunEvolves | apps/node_server/src/game/gameMachine.ts:127-157 | along any run, `answered` flags only go from false to true |
| GameMachineProperties.InitConsistent | apps/node_server/src/game/gameMachine.ts:188-197 | the initial snapshot is in `selection` with no question, no buzzer and nobody excluded |
| GameMachineProperties.StepConsistent | apps/node_server/src/game/gameMachine.ts:198-262 | every transition keeps the state and the context in agreement: a question is open exactly in `questionReading`, `waitingForBuzz` and `answer`, and a buzzer is set exactly in `answer` |
| GameMachineProperties.RunConsistent | apps/node_server/src/game/gameMachine.ts:198-262 | this agreement holds along any run |
| GameMachineProperties.GameEndIsFinal | apps/node_server/src/game/gameMachine.ts:260-262 | `gameEnd` is final: no sequence of events changes the snapshot |
| GameMachineProperties.GameEndIsFinalCorrected | apps/node_server/src/game/gameMachine.ts:260-262 | `gameEnd` is final in the corrected machine as well |
| GameMachineProperties.HostChoiceEffect | apps/node_server/src/game/gameMachine.ts:91-98 | `HOST_CHOICE` is taken only in `selection`; it goes to `questionReading` with the given, unvalidated pair, no buzzer and nobody excluded |
| GameMachineProperties.NobodyExcluded | apps/node_server/src/game/gameMachine.ts:56-61 | with nobody excluded, every player is eligible, in order |
| GameMachineProperties.AfterHostChoiceAllEligible | apps/node_server/src/game/gameMachine.ts:91-98 | after a question is chosen, every player may buzz |
| GameMachineProperties.PlayerBuzzEffect | apps/node_server/src/game/gameMachine.ts:220-227 | `PLAYER_BUZZ` is taken only in `waitingForBuzz`: it sets the buzzer, appends the pid to the excluded players and goes to `answer`; elsewhere nothing changes |
| GameMachineProperties.BuzzerNoLongerEligible | apps/node_server/src/game/gameMachine.ts:158-163 | after buzzing, a player is no longer eligible for this question |
| GameMachineProperties.AwardPointsScores | apps/node_server/src/game/gameMachine.ts:105-141 | `awardPoints` adds the question's value to the buzzer's score only, leaves every other player alone, leaves all players alone without a buzzer or a question, and marks the current question answered |
| GameMachineProperties.HostCorrectEffect | apps/node_server/src/game/gameMachine.ts:228-241 | `HOST_CORRECT` in `answer` awards the points, clears question, buzzer and exclusions, and goes to `gameEnd` exactly when no question remained before the transition |
| GameMachineProperties.HostIncorrectEffect | apps/node_server/src/game/gameMachine.ts:242-257 | `HOST_INCORRECT` with an eligible player left only clears the buzzer and waits for a buzz again, with no score change; otherwise it marks the question answered, closes it and goes to `gameEnd` or `selection` by the pre-action guard |
| GameMachineProperties.UnlistedEventsIgnored | apps/node_server/src/game/gameMachine.ts:198-263 | an event the current state does not list leaves the snapshot unchanged |
| GameMachineProperties.AddPlayerEffect | apps/node_server/src/game/gameMachine.ts:172-180 | `ADD_PLAYER` is taken only in `selection`: it appends the new player with score 0, keeps everyone else in order, and changes nothing else |
| GameMachineProperties.WithoutPidMembers | apps/node_server/src/game/gameMachine.ts:184 | the filter keeps exactly the players whose pid differs |
| GameMachineProperties.WithoutPidAppend | apps/node_server/src/game/gameMachine.ts:184 | the filter keeps the order: it distributes over concatenation |
| GameMachineProperties.WithoutAbsentPid | apps/node_server/src/game/gameMachine.ts:184 | removing a pid nobody has leaves the players as they are |
| GameMachineProperties.RemovePlayerEffect | apps/node_server/src/game/gameMachine.ts:181-186 | `REMOVE_PLAYER` is taken only in `selection`: the players become exactly those with another pid, in order, and nothing else changes |
| GameMachineProperties.AddThenRemove | apps/node_server/src/game/gameMachine.ts:172-186 | removing a player just added under a new pid gives back the snapshot before the addition |
| GameMachineProperties.AsWrittenOpenQuestionNeverEnds | apps/node_server/src/game/gameMachine.ts:230-256 | as written, resolving a question that is still open never reaches `gameEnd` |
| GameMachineProperties.AsWrittenLastQuestionStaysInSelection | apps/node_server/src/game/gameMachine.ts:230-241 | concretely: one question, one player, a correct answer, and the machine is back in `selection` with nothing left to choose |
| GameMachineProperties.CorrectedConcludes | apps/node_server/src/game/gameMachine.ts:230-256 | with the guard read after the actions, resolving a question ends the game exactly when no open question is left |
| GameMachineProperties.CorrectedLastQuestionEnds | apps/node_server/src/game/gameMachine.ts:230-256 | with the guard read after the actions, resolving the only open question ends the game |
| GameMachineProperties.TwoQuestionGameFirst | apps/node_server/src/game/gameMachine.ts:199-241 | a correct first answer scores the question's value and returns to `selection` |
| GameMachineProperties.TwoQuestionGameSecond | apps/node_server/src/game/gameMachine.ts:199-257 | a wrong last answer by the only player deducts nothing, closes the question and returns to `selection` |
| GameMachineProperties.TwoQuestionGame | apps/node_server/src/game/gameMachine.ts:188-264 | the whole two-question game: final score 100, in `selection` as written and in `gameEnd` when corrected |
| PlayerObject.Player.constructor | apps/node_server/src/game/Player.ts:12-20 | a new player has score 0, may buzz, is not connected and has no socket |
| PlayerObject.Player.Connect | apps/node_server/src/game/Player.ts:22-25 | binds the socket and marks the player connected; nothing else changes |
| PlayerObject.Player.Disconnect | apps/node_server/src/game/Player.ts:27-30 | drops the socket and marks the player disconnected |
| PlayerObject.Player.Send | apps/node_server/src/game/Player.ts:32-36 | one frame on the player's socket when it has one and is connected; nothing otherwise |
| PlayerObject.Player.AddScore | apps/node_server/src/game/Player.ts:38-40 | the score grows by exactly the given points and nothing else changes |
| PlayerObject.Player.ResetBuzz | apps/node_server/src/game/Player.ts:42-44 | `canBuzz` becomes true, whatever it was, so a second call changes nothing |
| PlayerObject.Player.DisableBuzz | apps/node_server/src/game/Player.ts:46-48 | `canBuzz` becomes false, whatever it was, so a second call changes nothing |
| PlayerObject.Player.ToJson | apps/node_server/src/game/Player.ts:50-56 | the summary carries exactly pid, name and score; it has no place for the token |
| RoomObject.Lookup | apps/node_server/src/game/Room.ts:52-54 | `players.get(pid)`: a found player is stored and has that pid, and nothing is found exactly when no stored player has it |
| RoomObject.LookupUnique | apps/node_server/src/game/Room.ts:45-54 | with distinct pids, looking up a stored player's pid finds that very player |
| RoomObject.WithoutMembers | apps/node_server/src/game/Room.ts:65-67 | after a delete, the players are exactly the old ones without that pid |
| RoomObject.WithoutDistinct | apps/node_server/src/game/Room.ts:65-67 | a delete keeps pids distinct and leaves the pid unknown |
| RoomObject.WithoutKeepsOthers | apps/node_server/src/game/Room.ts:65-67 | a delete does not change the lookup of any other pid |
| RoomObject.FanoutPrefixTargets | apps/node_server/src/game/Room.ts:70-77 | a broadcast frame goes exactly to the socket of a player with a socket that is connected |
| RoomObject.FanoutTargets | apps/node_server/src/game/Room.ts:70-77 | the same for the whole player list |
| RoomObject.ClosuresCoverFanout | apps/node_server/src/game/Room.ts:177-183 | every socket a broadcast reaches is closed by cleanup |
| RoomObject.Roster | apps/node_server/src/game/Room.ts:85-88 | the player list has one summary per player, in order |
| RoomObject.Room.constructor | apps/node_server/src/game/Room.ts:14-23 | a new room is in the lobby with no host, no players, buzzing off, no buzzer and `nextPid` 1 |
| RoomObject.Room.ConnectHost | apps/node_server/src/game/Room.ts:26-28 | the host socket becomes the given one |
| RoomObject.Room.DisconnectHost | apps/node_server/src/game/Room.ts:30-32 | the host socket is cleared |
| RoomObject.Room.SendToHost | apps/node_server/src/game/Room.ts:38-42 | one frame to the host socket if there is one, nothing otherwise |
| RoomObject.Room.IsHostConnected | apps/node_server/src/game/Room.ts:34-36 | whether a host socket is bound; `ConnectHost` and `DisconnectHost` set and clear it |
| RoomObject.Room.AddPlayer | apps/node_server/src/game/Room.ts:45-50 | the new player gets pid `nextPid` (1, 2, 3, … in call order), `nextPid` grows by one, the player is appended and found under its pid, and pids stay distinct |
| RoomObject.Room.GetPlayer | apps/node_server/src/game/Room.ts:52-54 | a found player is stored under that pid, and nothing is found exactly when no stored player has it |
| RoomObject.Room.GetPlayerByToken | apps/node_server/src/game/Room.ts:56-63 | the first stored player holding the token, or none exactly when no player holds it |
| RoomObject.Room.RemovePlayer | apps/node_server/src/game/Room.ts:65-67 | the players become the old ones without that pid, and the pid is no longer found |
| RoomObject.Room.Broadcast | apps/node_server/src/game/Room.ts:70-77 | the frames appended are exactly one per connected player with a socket, in player order |
| RoomObject.Room.BroadcastToAll | apps/node_server/src/game/Room.ts:79-82 | a broadcast, then the host only if it has a socket |
| RoomObject.Room.SendPlayerList | apps/node_server/src/game/Room.ts:85-88 | the host, if connected, receives the summaries of all players in order |
| RoomObject.Room.StartGame | apps/node_server/src/game/Room.ts:91-94 | the room is playing and everyone reachable is told so |
| RoomObject.Room.EndGame | apps/node_server/src/game/Room.ts:96-99 | the room has ended and everyone reachable is told so |
| RoomObject.Room.EnableBuzzing | apps/node_server/src/game/Room.ts:102-110 | buzzing is on, the buzzer is cleared, every player may buzz, other player fields are unchanged, and everyone reachable is told |
| RoomObject.Room.DisableBuzzing | apps/node_server/src/game/Room.ts:112-115 | buzzing is off and everyone reachable is told |
| RoomObject.Room.HandleBuzz | apps/node_server/src/game/Room.ts:117-142 | a buzz wins exactly when buzzing was on and the known player may buzz; a win sets the buzzer, turns buzzing off so that every later buzz loses until buzzing is enabled again, and notifies host and players; a loss changes nothing |
| RoomObject.Room.HandleHostChecked | apps/node_server/src/game/Room.ts:144-174 | without a known buzzer nothing happens; a correct answer adds the point value to the buzzer alone and reports it; a wrong one leaves the score, stops that player from buzzing, clears the buzzer and does not reopen buzzing |
| RoomObject.Room.AcceptAnswer | apps/node_server/src/game/Room.ts:150-160 | the buzzer's score grows by the point value; the result and the player list are sent |
| RoomObject.Room.RejectAnswer | apps/node_server/src/game/Room.ts:161-173 | the buzzer may no longer buzz, the buzzer is cleared, and the result is sent |
| RoomObject.Room.Cleanup | apps/node_server/src/game/Room.ts:177-188 | closes every player socket, in order, then the host socket |
| RoomRegistry.RoomCodeIsUpper | apps/node_server/src/game/RoomManager.ts:39-41 | a room code is upper case, so upper-casing it changes nothing |
| RoomRegistry.Pick | apps/node_server/src/game/RoomManager.ts:19-21 | a draw in [0, 1) picks a position inside the alphabet |
| RoomRegistry.CodeAt | apps/node_server/src/game/RoomManager.ts:17-22 | every attempt spells a room code: six characters of the alphabet |
| RoomRegistry.DrawCode | apps/node_server/src/game/RoomManager.ts:17-22 | the loop that appends one character per draw builds exactly that attempt's code |
| RoomRegistry.RoomManager.constructor | apps/node_server/src/game/RoomManager.ts:10-12 | the registry starts empty |
| RoomRegistry.RoomManager.GenerateRoomCode | apps/node_server/src/game/RoomManager.ts:14-25 | the result is a room code not in use, and it is the first attempt that was free |
| RoomRegistry.RoomManager.CreateRoom | apps/node_server/src/game/RoomManager.ts:31-37 | the new room is stored under a fresh code, holds that code and the returned host token, starts in the lobby, and the count grows by one |
| RoomRegistry.RoomManager.DeleteRoom | apps/node_server/src/game/RoomManager.ts:43-51 | true and removal, after closing the room's sockets, exactly when the exact key is present; otherwise false and nothing changes |
| RoomRegistry.RoomManager.GetRoom | apps/node_server/src/game/RoomManager.ts:39-41 | the lookup after upper-casing; `RoomRegistry.GetRoomFound` and `GetRoomIgnoresCase` state what it finds |
| RoomRegistry.RoomManager.RoomCount | apps/node_server/src/game/RoomManager.ts:57-59 | the number of stored rooms; `CreateRoom` raises it by one |
| Text.UpperIdempotent | apps/node_server/src/game/RoomManager.ts:40 | upper-casing a second time changes nothing, and neither does lower-casing first |
| RoomRegistry.GetRoomIgnoresCase | apps/node_server/src/game/RoomManager.ts:39-41 | any spelling of a stored code that differs only in case finds its room |
| RoomRegistry.GetRoomFound | apps/node_server/src/game/RoomManager.ts:39-41 | a lookup finds a room exactly when the upper-cased query is stored, and the room holds that code |
| JsParseInt.ParseIntRoundTrip | apps/node_server/src/ws/handler.ts:54 | reading back the decimal text of any integer gives that integer |
| JsParseInt.ParseInt | apps/node_server/src/ws/handler.ts:54 | `parseInt(s, 10)`; the `ParseInt*` lemmas state its round trip, its stop at the first non-digit, its skipping of white space and when it is NaN |
| JsParseInt.ParseIntStopsAtNonDigit | apps/node_server/src/ws/handler.ts:54 | reading stops at the first non-digit, so `"12abc"` reads as 12 |
| JsParseInt.ParseIntSkipsSpace | apps/node_server/src/ws/handler.ts:54 | leading white space is skipped |
| JsParseInt.ParseIntNaN | apps/node_server/src/ws/handler.ts:54 | the result is NaN exactly when no digit follows the white space and sign |
| JsParseInt.ParseMinus | apps/node_server/src/ws/handler.ts:54 | a minus sign in front of a digit negates the value |
| Handshake.MatchWsPathSound | apps/node_server/src/ws/handler.ts:25-29 | a matching path captures six letters, and it is the room's path up to case |
| Handshake.MatchWsPath | apps/node_server/src/ws/handler.ts:26 | the path pattern; `MatchWsPathSound`, `MatchWsPathComplete` and `MatchWsPathIgnoresCase` state exactly which paths match and what is captured |
| Handshake.MatchWsPathComplete | apps/node_server/src/ws/handler.ts:25-29 | the path of any six letters matches and captures them as written |
| Handshake.MatchWsPathIgnoresCase | apps/node_server/src/ws/handler.ts:26-31 | the pattern ignores case, and the upper-cased capture is the same either way |
| Handshake.Classify | apps/node_server/src/ws/handler.ts:46-80 | a reconnect names a stored player holding the given token; a refusal is a 400 or a 401 |
| Handshake.HostFirst | apps/node_server/src/ws/handler.ts:46-51 | the connection is the host's exactly when a non-empty token equals the host token, whatever the other parameters say |
| Handshake.RejoinExactly | apps/node_server/src/ws/handler.ts:52-66 | a reconnect is accepted exactly when id and token are given, the token is not the host's, the id parses to a stored pid, and that player's token is the one given |
| Handshake.BadCredentials | apps/node_server/src/ws/handler.ts:52-59 | an id and token that do not name a player give 401, even when a name is also given |
| Handshake.JoinExactly | apps/node_server/src/ws/handler.ts:67-77 | a name joins exactly when there is neither the host token nor an id-and-token pair |
| Handshake.TokenAloneIsNoReconnect | apps/node_server/src/ws/handler.ts:46-80 | a token without an id never reconnects: it joins by name or is refused with 400 |
| Handshake.HandleUpgrade | apps/node_server/src/ws/handler.ts:18-89 | bad path 400; unknown room 404 before any parameter is read; otherwise the decision on the room as it was. Only a join changes the room: exactly one player with the next pid and the fresh token, kept even when the upgrade fails (500) |
| Handshake.HandleOpen | apps/node_server/src/ws/handler.ts:92-140 | unknown room closes with 1008. The host is bound and sent the player list, and nothing else in the room changes. A player who could buzz right now gets `BuzzEnabled` first; a known player is then bound, sent `NewPlayer` with its pid and token (also on reconnect), and the host gets the list; the player's score and buzz permission are kept. The registry stays valid |
| Handshake.OpenHost | apps/node_server/src/ws/handler.ts:116-119 | the host socket is bound and receives the player list |
| Handshake.OpenGuest | apps/node_server/src/ws/handler.ts:101-139 | a player socket: the buzz hint exactly when the actor lists the pid as eligible and the gate is up, then the binding and the messages of `OpenPlayer`; score and buzz permission are kept |
| Handshake.OpenPlayer | apps/node_server/src/ws/handler.ts:122-138 | a known player is connected to the socket, keeping its score and buzz permission, and sent its pid and token, then the host gets the list; an unknown pid changes nothing |
| Handshake.HasEligible | apps/node_server/src/ws/handler.ts:107-110 | true exactly when an eligible player has the pid |
| Handshake.HandleMessage | apps/node_server/src/ws/handler.ts:143-166 | unknown room closes with 1008; an unparsable message is dropped; a host message has the whole effect `HandleHostMessage` states (phase, gate, buzzer, per-player fields and announcements), apart from the room calls outside this model, and yields its game-machine event; a dropped message, or a player socket without a pid, leaves the room and every player unchanged; a player message from an unknown pid is ignored, a known player's buzz yields `PLAYER_BUZZ` (the machine's own effect on the room being outside this model) and, when the machine does not take it and the gate lets it through, takes the room's buzzer, and a heartbeat is answered with the same id. Players and pid counter stay, so the registry stays valid |
| Handshake.HandleHostMessage | apps/node_server/src/ws/handler.ts:169-202 | start and end set the phase and announce it to players and host, keeping the gate and buzzer; buzz-enable opens the gate, clears the buzzer, lets every player buzz and announces it; buzz-disable closes the gate and announces it, keeping the buzzer. Scores, connections, players and pid counter never change in these branches. A verdict, a choice and "ready" are handed to the game machine as its events, and apart from the room calls outside this model change nothing; anything else changes nothing |
| Handshake.HandlePlayerMessage | apps/node_server/src/ws/handler.ts:205-233 | an unknown pid is ignored. A buzz goes to the game machine first; if the machine takes it, the room is untouched apart from the room call outside this model, otherwise it wins exactly when the gate was up and the player may buzz, and a win takes the buzzer, closes the gate and tells the host and everyone, while a loss changes nothing. A heartbeat is answered with `GotHeartbeat` carrying the same id |
| Handshake.HandleClose | apps/node_server/src/ws/handler.ts:236-253 | a host close clears the host socket and changes nothing else in the room. A known player is marked disconnected but stays in the room with its score and buzz permission, and the host gets the new list. The registry stays valid |
| Handshake.CloseThenReopen | apps/node_server/src/game/Player.ts:22-30 | a player whose socket closes and who reconnects on a new socket is still in the room under the same pid, bound to the new socket, with the score and buzz permission it had |
| RustGame.Position | apps/server/src/game.rs:57-62 | the sender's entry is the first entry with that pid, and there is none exactly when no entry has it |
| RustGame.Transition | apps/server/src/game.rs:69-110 | the state table of `update`; `CommandsIgnorePriorState`, `BuzzAnswers`, `CorrectAnswer`, `WrongAnswer` and `OthersKeepState` state each row |
| RustGame.Room.constructor | apps/server/src/game.rs:22-31 | a new room is in `Start` with no host, no players and no questions |
| RustGame.Room.SetHost | apps/server/src/game.rs:41-43 | the host becomes the given one, replacing any previous host |
| RustGame.Room.VerifyHostToken | apps/server/src/game.rs:45-47 | true exactly when the argument equals the host token |
| RustGame.Room.AddPlayer | apps/server/src/game.rs:51-54 | appends exactly one entry for the given pid and name with score 0 and not buzzed; earlier entries stay unchanged and in order |
| RustGame.Room.Update | apps/server/src/game.rs:56-141 | a `PlayerList` is passed on to the host if there is one. `BuzzDisable` panics, and so does an over-32-bit latency from a sender with an entry. Otherwise the state follows the table, and the players, questions, code and host token never change |
| RustGame.CommandsIgnorePriorState | apps/server/src/game.rs:96-106 | `StartGame` goes to `Selection`, `EndGame` to `GameEnd` and `BuzzEnable` to `AwaitingBuzz`, whatever the prior state |
| RustGame.BuzzAnswers | apps/server/src/game.rs:108-110 | `Buzz` goes to `Answer` with the sender's id, unconditionally |
| RustGame.CorrectAnswer | apps/server/src/game.rs:86-93 | a correct answer goes to `GameEnd` exactly when there are no questions, else to `Selection` |
| RustGame.WrongAnswer | apps/server/src/game.rs:71-84 | a wrong answer goes to `AwaitingBuzz` exactly when some player has buzzed; otherwise it behaves like a correct one |
| RustGame.OthersKeepState | apps/server/src/game.rs:111-138 | messages outside the table leave the state unchanged |
| RustGame.PositionFinds | apps/server/src/game.rs:58 | if some entry carries the pid, the search finds one at or before it |
| RustGame.AddKeepsNobodyBuzzed | apps/server/src/game.rs:51-54 | adding a player keeps every `buzzed` flag down |
| RustGame.BuildAndUpdate | apps/server/src/game.rs:51-141 | any room built by the constructor and any interleaving of `add_player` and `update` calls, up to the first panic, has no player that buzzed and one entry per join |
| RustGame.WrongAnswerNeverWaits | apps/server/src/game.rs:71-84 | hence, in such a room, a wrong answer never reaches `AwaitingBuzz` |
| RustPlayer.NewEntry | apps/server/src/player.rs:28-35 | the given player and channel, status `Connected`, and five zero latencies |
| RustPlayer.DidBuzz | apps/server/src/player.rs:37-39 | the player record's `buzzed` flag; an entry `add_player` creates never reports a buzz (`RustGame.AddKeepsNobodyBuzzed`) |
| RustPlayer.Update | apps/server/src/player.rs:41-44 | exactly one unchanged copy of the message goes to the entry's channel |
| GameFile.ClueToQuestion | apps/server/src/game_file.rs:34-37 | a converted question starts unanswered |
| GameFile.ConvertClues | apps/server/src/game_file.rs:33-38 | one question per clue, same length and order, clue to question, solution to answer, value to value, unanswered |
| GameFile.FromGameFile | apps/server/src/game_file.rs:29-40 | the title is the file's category, and the questions are the clues converted in order |
| GameFile.ToGameFile | apps/server/src/game_file.rs:29-40 | the inverse: the game-file record a category comes from |
| GameFile.FromGameFileRoundTrip | apps/server/src/game_file.rs:29-40 | nothing in a game-file category is lost by the conversion |
| GameFile.ToGameFileRoundTrip | apps/server/src/game_file.rs:29-40 | a category whose questions are all open is exactly the conversion of its game-file record |
| GameFile.AnsweredIsNotFromFile | apps/server/src/game_file.rs:37 | a category with an answered question is never the result of a conversion |
| GameFile.ConvertCluesAppend | apps/server/src/game_file.rs:33-38 | the conversion keeps order: it distributes over concatenation |

## Left out

- I/O and wiring, left out as outside the logic:
  - the Bun server callbacks and routes in `index.ts` and `routes/rooms.ts`;
  - `main.rs`, which does not compile as written;
  - `host.rs` channel plumbing;
  - console logging.
- Concurrency is left out because every modelled operation runs to completion: the `async`/`await`, the tokio `Mutex`, and the order in which sockets interleave.
- `messages.ts` is left out because it is library behaviour: JSON parsing of messages, and their key checks. `HandleMessage` takes the parsed message, or `None` when parsing fails.
- `URL` parsing is left out for the same reason. `HandleUpgrade` takes the path and the three query parameters, each `None` when absent.
- `sendGameStateToHost`, the game actor and the `Room` members `handleHostCorrect`, `handleHostIncorrect`, `handleHostChoice`, `handleHostReady` and `handlePlayerBuzz` are called by the handler but are not part of this model.
  - The dispatch returns the game-machine event it would hand them.
  - `handlePlayerBuzz`'s result and the actor's context are inputs.
  - `OpenHost` therefore does not model the game-state message the host also receives on open.
- Handshake.HandleHostMessage: for a verdict, a choice and "ready" it calls `room.handleHostCorrect`, `handleHostIncorrect`, `handleHostChoice` or `handleHostReady` (`handler.ts:187-200`), whose bodies are not part of this model. The model takes these calls to change neither the room, its players' scores and buzz permissions, nor the outbox, so its contract does not promise what those calls do to them.
- Handshake.HandlePlayerMessage: a buzz first calls `room.handlePlayerBuzz` (`handler.ts:217`), whose body is not part of this model. Its result is the input `machineTookBuzz`, and the model takes the call to change neither the room nor the outbox, so when the machine takes the buzz the contract does not promise what that call does to them.
- Handshake.HandleMessage: it passes host and player messages to `HandleHostMessage` and `HandlePlayerMessage`, so it inherits both assumptions above about the room calls outside this model.
- Heartbeat handling in the Rust `update` is left out because it calls `on_know_dohb_recv` and `on_latencyhb`, which are not part of this model. The Rust heartbeat branches leave the room unchanged; only the panic of the 32-bit conversion before `on_latencyhb` is kept.
- Latency averaging and the delayed "witness" rebroadcast are left out because no implementation of them exists in the code.
- Rust channel send errors (the `?` on `send`) are left out: every send succeeds in the model.
- `send_all` in `game.rs` is left out because nothing calls it.
- `ConnectionStatus` is modelled with only the `Connected` variant, the only one the code uses.
- `GameMachine` actions `ADD_PLAYER`/`REMOVE_PLAYER`/`UPDATE_PLAYER_SCORE` are modelled by the transition function. `UPDATE_PLAYER_SCORE` is accepted in no state and so is ignored.
- `Handshake.HandleOpen` requires a token for a non-host socket with a pid. This stands for the non-null assertion `playerToken!`; the handshake always supplies a token with a pid.
- RoomRegistry.RoomManager.GetRoom: upper-cases ASCII letters only. JavaScript's `toUpperCase` also maps a few non-ASCII characters onto ASCII letters (U+017F to `S`), so such a spelling of a stored code finds the room in the source but not in the model. On the handshake path this cannot arise, because the regular expression admits only ASCII letters (non-Unicode `i` mode never folds a non-ASCII character to ASCII).
- RoomRegistry.RoomManager.GenerateRoomCode: requires that some attempt draws a free code. When every attempt collides, the source's do-while loop never ends.
- RoomRegistry.RoomManager.CreateRoom: requires the same, for the same reason.
- RoomObject.Room.HandleHostChecked: takes the point value as a parameter; the source's default of 100 (`Room.ts:144`) is not modelled. Nothing in the source calls `handleHostChecked`; the handler goes through `handleHostCorrect` and `handleHostIncorrect` instead (`handler.ts:187-194`), so no caller relies on the default.
- JsParseInt.ParseInt: models `parseInt(s, 10)` on integers only. Digit runs too long for a double, which would lose precision, are read exactly.

## Findings

| source | as written | input that shows it | evidently intended | confidence | as-written member | corrected member |
|---|---|---|---|---|---|---|
| apps/node_server/src/game/gameMachine.ts:230-256 | xstate reads the `noQuestionsRemain` / `questionsRemain` guards on the context before the transition's `awardPoints` / `markQuestionAnswered` actions run, and the current question is still unanswered then, so resolving a question never reaches `gameEnd` | one category with one question, one player: `HOST_CHOICE(0,0)`, `HOST_READY`, `PLAYER_BUZZ(1)`, `HOST_CORRECT` ends in `selection` with no question left to choose | the game ends when the question just resolved was the last one | not executed | GameMachineProperties.AsWrittenLastQuestionStaysInSelection | GameMachineProperties.CorrectedLastQuestionEnds |
