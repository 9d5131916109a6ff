/**
 * The trivia game as a state machine (apps/node_server/src/game/gameMachine.ts).
 *
 * The machine is declared as an xstate table. An event first selects a
 * transition of the current state by evaluating its guards on the context as
 * it is BEFORE the transition; then the transition's `assign` actions run in
 * order, each seeing the context left by the previous one. An event that no
 * transition of the current state accepts leaves the snapshot unchanged, and
 * the final state `gameEnd` accepts nothing.
 */
module GameMachine {
  import opened Wrappers

  datatype Question = Question(question: string, answer: string, value: int, answered: bool)

  datatype Category = Category(title: string, questions: seq<Question>)

  /** A player as the machine sees it: no token, no connection. */
  datatype PlayerState = PlayerState(pid: int, name: string, score: int)

  datatype Context = Context(
    categories: seq<Category>,
    players: seq<PlayerState>,
    currentQuestion: Option<(int, int)>,  // (categoryIndex, questionIndex)
    currentBuzzer: Option<int>,
    excludedPlayers: seq<int>)            // players who already buzzed on the current question

  datatype State = Selection | QuestionReading | WaitingForBuzz | Answer | GameEnd

  datatype Event =
    | HostChoice(categoryIndex: int, questionIndex: int)
    | HostReady
    | PlayerBuzz(pid: int)
    | HostCorrect
    | HostIncorrect
    | AddPlayer(pid: int, name: string)
    | RemovePlayer(pid: int)
    | UpdatePlayerScore(pid: int, score: int)  // declared, but no state handles it

  datatype Snapshot = Snapshot(state: State, context: Context)

  // ---------------------------------------------------------------------------
  // Helpers

  function HasUnanswered(qs: seq<Question>): bool {
    if qs == [] then false else !qs[0].answered || HasUnanswered(qs[1..])
  }

  /** `categories.some(cat => cat.questions.some(q => !q.answered))` */
  function HasQuestionsRemaining(cats: seq<Category>): bool {
    if cats == [] then false else HasUnanswered(cats[0].questions) || HasQuestionsRemaining(cats[1..])
  }

  /** Question `qi` of category `ci` exists and is still open. */
  ghost predicate IsOpen(cats: seq<Category>, ci: int, qi: int) {
    0 <= ci < |cats| && 0 <= qi < |cats[ci].questions| && !cats[ci].questions[qi].answered
  }

  lemma {:induction false} HasUnansweredIff(qs: seq<Question>)
    ensures HasUnanswered(qs) <==> exists qi :: 0 <= qi < |qs| && !qs[qi].answered
  {
    if qs != [] {
      HasUnansweredIff(qs[1..]);
      if HasUnanswered(qs[1..]) {
        var qi :| 0 <= qi < |qs[1..]| && !qs[1..][qi].answered;
        assert !qs[qi + 1].answered;
      }
      if exists qi :: 0 <= qi < |qs| && !qs[qi].answered {
        var qi :| 0 <= qi < |qs| && !qs[qi].answered;
        if qi > 0 {
          assert !qs[1..][qi - 1].answered;
        }
      }
    }
  }

  /** Questions remain exactly when some category holds a question with `answered == false`. */
  lemma {:induction false} HasQuestionsRemainingIff(cats: seq<Category>)
    ensures HasQuestionsRemaining(cats) <==> exists ci, qi :: IsOpen(cats, ci, qi)
  {
    if cats != [] {
      HasQuestionsRemainingIff(cats[1..]);
      HasUnansweredIff(cats[0].questions);
      if HasUnanswered(cats[0].questions) {
        var qi :| 0 <= qi < |cats[0].questions| && !cats[0].questions[qi].answered;
        assert IsOpen(cats, 0, qi);
      }
      if HasQuestionsRemaining(cats[1..]) {
        var ci, qi :| IsOpen(cats[1..], ci, qi);
        assert IsOpen(cats, ci + 1, qi);
      }
      if exists ci, qi :: IsOpen(cats, ci, qi) {
        var ci, qi :| IsOpen(cats, ci, qi);
        if ci > 0 {
          assert IsOpen(cats[1..], ci - 1, qi);
        }
      }
    }
  }

  /** `players.filter(p => !excludedPlayers.includes(p.pid))` */
  function EligiblePlayers(players: seq<PlayerState>, excluded: seq<int>): seq<PlayerState> {
    if players == [] then []
    else (if players[0].pid in excluded then [] else [players[0]]) + EligiblePlayers(players[1..], excluded)
  }

  /** The eligible players are exactly the players whose pid is not excluded. */
  lemma {:induction false} EligiblePlayersMembers(players: seq<PlayerState>, excluded: seq<int>, p: PlayerState)
    ensures p in EligiblePlayers(players, excluded) <==> p in players && p.pid !in excluded
  {
    if players != [] {
      EligiblePlayersMembers(players[1..], excluded, p);
      assert players == [players[0]] + players[1..];
    }
  }

  /** Filtering keeps the original order: it distributes over concatenation. */
  lemma {:induction false} EligiblePlayersAppend(a: seq<PlayerState>, b: seq<PlayerState>, excluded: seq<int>)
    ensures EligiblePlayers(a + b, excluded) == EligiblePlayers(a, excluded) + EligiblePlayers(b, excluded)
  {
    if a == [] {
      assert a + b == b;
    } else {
      assert (a + b)[1..] == a[1..] + b;
      EligiblePlayersAppend(a[1..], b, excluded);
    }
  }

  /** Nobody is eligible exactly when every player's pid is excluded. */
  lemma {:induction false} NoEligibleIff(players: seq<PlayerState>, excluded: seq<int>)
    ensures |EligiblePlayers(players, excluded)| == 0 <==> forall i :: 0 <= i < |players| ==> players[i].pid in excluded
  {
    if players != [] {
      NoEligibleIff(players[1..], excluded);
      if forall i :: 0 <= i < |players[1..]| ==> players[1..][i].pid in excluded {
        if players[0].pid in excluded {
          forall i | 0 <= i < |players| ensures players[i].pid in excluded {
            if i > 0 { assert players[i] == players[1..][i - 1]; }
          }
        }
      } else {
        var j :| 0 <= j < |players[1..]| && players[1..][j].pid !in excluded;
        assert players[j + 1].pid !in excluded;
      }
    }
  }

  // ---------------------------------------------------------------------------
  // Guards (always evaluated on the context before the transition)

  predicate QuestionsRemain(ctx: Context)
    ensures QuestionsRemain(ctx) <==> exists ci, qi :: IsOpen(ctx.categories, ci, qi)
  {
    HasQuestionsRemainingIff(ctx.categories);
    HasQuestionsRemaining(ctx.categories)
  }

  predicate NoQuestionsRemain(ctx: Context)
    ensures NoQuestionsRemain(ctx) <==> forall ci, qi :: !IsOpen(ctx.categories, ci, qi)
  {
    HasQuestionsRemainingIff(ctx.categories);
    !HasQuestionsRemaining(ctx.categories)
  }

  predicate PlayersCanStillBuzz(ctx: Context)
    ensures PlayersCanStillBuzz(ctx) <==>
      exists i :: 0 <= i < |ctx.players| && ctx.players[i].pid !in ctx.excludedPlayers
  {
    NoEligibleIff(ctx.players, ctx.excludedPlayers);
    |EligiblePlayers(ctx.players, ctx.excludedPlayers)| > 0
  }

  predicate AllPlayersBuzzed(ctx: Context)
    ensures AllPlayersBuzzed(ctx) <==>
      forall i :: 0 <= i < |ctx.players| ==> ctx.players[i].pid in ctx.excludedPlayers
  {
    NoEligibleIff(ctx.players, ctx.excludedPlayers);
    |EligiblePlayers(ctx.players, ctx.excludedPlayers)| == 0
  }

  // ---------------------------------------------------------------------------
  // Actions

  function SelectQuestion(ctx: Context, categoryIndex: int, questionIndex: int): Context {
    ctx.(currentQuestion := Some((categoryIndex, questionIndex)), excludedPlayers := [], currentBuzzer := None)
  }

  function RecordBuzz(ctx: Context, pid: int): Context {
    ctx.(currentBuzzer := Some(pid))
  }

  /** `categories[ci]?.questions[qi]?.value ?? 0` */
  function PointValue(cats: seq<Category>, ci: int, qi: int): int {
    if 0 <= ci < |cats| && 0 <= qi < |cats[ci].questions| then cats[ci].questions[qi].value else 0
  }

  /** Adds `points` to the score of every player whose pid is `pid`. */
  function Credit(players: seq<PlayerState>, pid: int, points: int): seq<PlayerState> {
    seq(|players|, i requires 0 <= i < |players| =>
      if players[i].pid == pid then players[i].(score := players[i].score + points) else players[i])
  }

  /** Sets `answered` on question `qi` of category `ci`, leaving everything else as it is. */
  function MarkAnswered(cats: seq<Category>, ci: int, qi: int): seq<Category> {
    seq(|cats|, c requires 0 <= c < |cats| =>
      if c == ci then
        cats[c].(questions := seq(|cats[c].questions|, q requires 0 <= q < |cats[c].questions| =>
          if q == qi then cats[c].questions[q].(answered := true) else cats[c].questions[q]))
      else cats[c])
  }

  function AwardPoints(ctx: Context): Context {
    ctx.(
      players :=
        if ctx.currentBuzzer.None? || ctx.currentQuestion.None? then ctx.players
        else
          var (ci, qi) := ctx.currentQuestion.value;
          Credit(ctx.players, ctx.currentBuzzer.value, PointValue(ctx.categories, ci, qi)),
      categories :=
        if ctx.currentQuestion.None? then ctx.categories
        else MarkAnswered(ctx.categories, ctx.currentQuestion.value.0, ctx.currentQuestion.value.1))
  }

  function MarkQuestionAnswered(ctx: Context): Context {
    if ctx.currentQuestion.None? then ctx
    else ctx.(categories := MarkAnswered(ctx.categories, ctx.currentQuestion.value.0, ctx.currentQuestion.value.1))
  }

  function ExcludeCurrentBuzzer(ctx: Context): Context {
    if ctx.currentBuzzer.None? then ctx
    else ctx.(excludedPlayers := ctx.excludedPlayers + [ctx.currentBuzzer.value])
  }

  function ClearCurrentBuzzer(ctx: Context): Context {
    ctx.(currentBuzzer := None)
  }

  function ClearCurrentQuestion(ctx: Context): Context {
    ctx.(currentQuestion := None, currentBuzzer := None, excludedPlayers := [])
  }

  function AddPlayerAction(ctx: Context, pid: int, name: string): Context {
    ctx.(players := ctx.players + [PlayerState(pid, name, 0)])
  }

  /** `players.filter(p => p.pid !== pid)` */
  function WithoutPid(players: seq<PlayerState>, pid: int): (r: seq<PlayerState>)
    ensures |r| <= |players|
    ensures forall i :: 0 <= i < |r| ==> r[i].pid != pid && r[i] in players
  {
    if players == [] then []
    else (if players[0].pid == pid then [] else [players[0]]) + WithoutPid(players[1..], pid)
  }

  function RemovePlayerAction(ctx: Context, pid: int): Context {
    ctx.(players := WithoutPid(ctx.players, pid))
  }

  // ---------------------------------------------------------------------------
  // The machine

  /** The initial snapshot built from the machine's input. */
  function Init(categories: seq<Category>, players: seq<PlayerState>): Snapshot {
    Snapshot(Selection, Context(categories, players, None, None, []))
  }

  /**
   * The end of a question: the guard `noQuestionsRemain` is read on
   * `guardCtx` and chooses between `gameEnd` and `selection` (the second
   * candidate's guard `questionsRemain` is its negation).
   */
  function Conclude(guardCtx: Context, next: Context): Snapshot {
    if NoQuestionsRemain(guardCtx) then Snapshot(GameEnd, next) else Snapshot(Selection, next)
  }

  /** One event, as the transition table is written. */
  function Step(s: Snapshot, e: Event): (r: Snapshot)
    ensures s.state == GameEnd ==> r == s
    ensures r.state == QuestionReading ==> s.state in {Selection, QuestionReading}
    ensures r.state == WaitingForBuzz ==> s.state in {QuestionReading, WaitingForBuzz, Answer}
    ensures r.state == Answer ==> s.state in {WaitingForBuzz, Answer}
    ensures r.state == GameEnd ==> s.state in {Answer, GameEnd}
    ensures r.state == s.state && !(e.AddPlayer? || e.RemovePlayer?) ==> r == s
  {
    var ctx := s.context;
    match s.state
    case Selection =>
      (match e
       case HostChoice(ci, qi) => Snapshot(QuestionReading, SelectQuestion(ctx, ci, qi))
       case AddPlayer(pid, name) => Snapshot(Selection, AddPlayerAction(ctx, pid, name))
       case RemovePlayer(pid) => Snapshot(Selection, RemovePlayerAction(ctx, pid))
       case _ => s)
    case QuestionReading =>
      if e.HostReady? then Snapshot(WaitingForBuzz, ctx) else s
    case WaitingForBuzz =>
      if e.PlayerBuzz? then Snapshot(Answer, ExcludeCurrentBuzzer(RecordBuzz(ctx, e.pid))) else s
    case Answer =>
      if e.HostCorrect? then
        Conclude(ctx, ClearCurrentQuestion(AwardPoints(ctx)))
      else if e.HostIncorrect? then
        if PlayersCanStillBuzz(ctx) then Snapshot(WaitingForBuzz, ClearCurrentBuzzer(ctx))
        else Conclude(ctx, ClearCurrentQuestion(MarkQuestionAnswered(ctx)))
      else s
    case GameEnd => s
  }

  /**
   * The evidently intended machine: identical to `Step` except that the
   * end-of-question guard reads the context AFTER the question was marked
   * answered, so that resolving the last open question ends the game.
   */
  function StepCorrected(s: Snapshot, e: Event): Snapshot {
    var ctx := s.context;
    if s.state == Answer && e.HostCorrect? then
      var next := ClearCurrentQuestion(AwardPoints(ctx));
      Conclude(next, next)
    else if s.state == Answer && e.HostIncorrect? && !PlayersCanStillBuzz(ctx) then
      var next := ClearCurrentQuestion(MarkQuestionAnswered(ctx));
      Conclude(next, next)
    else Step(s, e)
  }

  /** A sequence of events, applied in order. */
  function Run(s: Snapshot, es: seq<Event>): Snapshot
    decreases |es|
  {
    if es == [] then s else Run(Step(s, es[0]), es[1..])
  }

  function RunCorrected(s: Snapshot, es: seq<Event>): Snapshot
    decreases |es|
  {
    if es == [] then s else RunCorrected(StepCorrected(s, es[0]), es[1..])
  }

  // ---------------------------------------------------------------------------
  // The state sent to the host

  datatype GameStateSnapshot = GameStateSnapshot(
    state: string,
    categories: seq<Category>,
    players: seq<PlayerState>,
    currentQuestion: Option<(int, int)>,
    currentBuzzer: Option<int>)

  /** The xstate state value: the name of the state in the machine's table. */
  function StateName(s: State): string {
    match s
    case Selection => "selection"
    case QuestionReading => "questionReading"
    case WaitingForBuzz => "waitingForBuzz"
    case Answer => "answer"
    case GameEnd => "gameEnd"
  }

  function ParseStateName(name: string): Option<State> {
    if name == "selection" then Some(Selection)
    else if name == "questionReading" then Some(QuestionReading)
    else if name == "waitingForBuzz" then Some(WaitingForBuzz)
    else if name == "answer" then Some(Answer)
    else if name == "gameEnd" then Some(GameEnd)
    else None
  }

  function CreateGameStateSnapshot(state: string, ctx: Context): GameStateSnapshot {
    GameStateSnapshot(state, ctx.categories, ctx.players, ctx.currentQuestion, ctx.currentBuzzer)
  }

  /**
   * What the host receives determines the machine's snapshot, except for the
   * excluded players, which the message leaves out.
   */
  function Restore(g: GameStateSnapshot, excluded: seq<int>): Option<Snapshot> {
    match ParseStateName(g.state)
    case None => None
    case Some(st) => Some(Snapshot(st, Context(g.categories, g.players, g.currentQuestion, g.currentBuzzer, excluded)))
  }

  lemma SnapshotRoundTrip(s: Snapshot)
    ensures Restore(CreateGameStateSnapshot(StateName(s.state), s.context), s.context.excludedPlayers) == Some(s)
  {
  }
}
