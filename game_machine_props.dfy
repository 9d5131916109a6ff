/**
 * What the game machine of apps/node_server/src/game/gameMachine.ts
 * guarantees: the effect of each event in each state, the bookkeeping of
 * scores, questions and excluded players, and the invariants every run keeps.
 */
module GameMachineProperties {
  import opened Wrappers
  import opened GameMachine

  // ---------------------------------------------------------------------------
  // The board only ever gains answered questions

  /** Two boards that differ at most in the `answered` flags. */
  ghost predicate SameBoard(a: seq<Category>, b: seq<Category>) {
    && |a| == |b|
    && (forall c :: 0 <= c < |a| ==> a[c].title == b[c].title && |a[c].questions| == |b[c].questions|)
    && (forall c, q :: 0 <= c < |a| && 0 <= q < |a[c].questions| && q < |b[c].questions| ==>
          a[c].questions[q].(answered := false) == b[c].questions[q].(answered := false))
  }

  /** `b` is `a` with possibly more questions answered, and none un-answered. */
  ghost predicate Evolves(a: seq<Category>, b: seq<Category>) {
    && SameBoard(a, b)
    && (forall c, q :: 0 <= c < |a| && 0 <= q < |a[c].questions| && a[c].questions[q].answered ==>
          b[c].questions[q].answered)
  }

  lemma EvolvesTransitive(a: seq<Category>, b: seq<Category>, c: seq<Category>)
    requires Evolves(a, b) && Evolves(b, c)
    ensures Evolves(a, c)
  {
  }

  /** Marking sets exactly the targeted flag and touches nothing else. */
  lemma MarkAnsweredEffect(cats: seq<Category>, ci: int, qi: int)
    ensures Evolves(cats, MarkAnswered(cats, ci, qi))
    ensures forall c, q :: 0 <= c < |cats| && 0 <= q < |cats[c].questions| ==>
      MarkAnswered(cats, ci, qi)[c].questions[q].answered == (cats[c].questions[q].answered || (c == ci && q == qi))
    ensures !(0 <= ci < |cats| && 0 <= qi < |cats[ci].questions|) ==> MarkAnswered(cats, ci, qi) == cats
  {
    if !(0 <= ci < |cats| && 0 <= qi < |cats[ci].questions|) {
      forall c | 0 <= c < |cats| ensures MarkAnswered(cats, ci, qi)[c] == cats[c] {
        if c == ci {
          assert MarkAnswered(cats, ci, qi)[c].questions == cats[c].questions;
        }
      }
    }
  }

  /** Marking an existing question is a point update of the board. */
  lemma MarkAnsweredAt(cats: seq<Category>, ci: int, qi: int)
    requires 0 <= ci < |cats| && 0 <= qi < |cats[ci].questions|
    ensures MarkAnswered(cats, ci, qi) ==
      cats[ci := cats[ci].(questions := cats[ci].questions[qi := cats[ci].questions[qi].(answered := true)])]
  {
    var qs := cats[ci].questions;
    assert MarkAnswered(cats, ci, qi)[ci].questions == qs[qi := qs[qi].(answered := true)];
  }

  /** Four events in a row. */
  lemma RunFour(s: Snapshot, a: Event, b: Event, c: Event, d: Event)
    ensures Run(s, [a, b, c, d]) == Step(Step(Step(Step(s, a), b), c), d)
    ensures RunCorrected(s, [a, b, c, d]) == StepCorrected(StepCorrected(StepCorrected(StepCorrected(s, a), b), c), d)
  {
    assert [a, b, c, d][1..] == [b, c, d];
    assert [b, c, d][1..] == [c, d];
    assert [c, d][1..] == [d];
    assert [d][1..] == [];
    var s1 := Step(s, a);
    var s2 := Step(s1, b);
    var s3 := Step(s2, c);
    assert Run(s, [a, b, c, d]) == Run(s1, [b, c, d]) == Run(s2, [c, d]) == Run(s3, [d]) == Run(Step(s3, d), []);
    var t1 := StepCorrected(s, a);
    var t2 := StepCorrected(t1, b);
    var t3 := StepCorrected(t2, c);
    assert RunCorrected(s, [a, b, c, d]) == RunCorrected(t1, [b, c, d]) == RunCorrected(t2, [c, d])
        == RunCorrected(t3, [d]) == RunCorrected(StepCorrected(t3, d), []);
  }

  /** The board after one event: as it was, or with the current question marked answered. */
  ghost predicate BoardStep(ctx: Context, next: seq<Category>) {
    || next == ctx.categories
    || (ctx.currentQuestion.Some? && next == MarkAnswered(ctx.categories, ctx.currentQuestion.value.0, ctx.currentQuestion.value.1))
  }

  lemma StepBoard(s: Snapshot, e: Event)
    ensures BoardStep(s.context, Step(s, e).context.categories)
  {
    match s.state
    case Selection =>
    case QuestionReading =>
    case WaitingForBuzz =>
    case Answer =>
    case GameEnd =>
  }

  lemma StepCorrectedBoard(s: Snapshot, e: Event)
    ensures BoardStep(s.context, StepCorrected(s, e).context.categories)
  {
    if !(s.state == Answer && (e.HostCorrect? || e.HostIncorrect?)) {
      StepBoard(s, e);
    }
  }

  /** No event changes the board other than by answering questions. */
  lemma StepEvolves(s: Snapshot, e: Event)
    ensures Evolves(s.context.categories, Step(s, e).context.categories)
    ensures Evolves(s.context.categories, StepCorrected(s, e).context.categories)
  {
    var ctx := s.context;
    StepBoard(s, e);
    StepCorrectedBoard(s, e);
    if ctx.currentQuestion.Some? {
      MarkAnsweredEffect(ctx.categories, ctx.currentQuestion.value.0, ctx.currentQuestion.value.1);
    }
  }

  /** Along any run, `answered` goes from false to true and never back. */
  lemma {:induction false} RunEvolves(s: Snapshot, es: seq<Event>)
    ensures Evolves(s.context.categories, Run(s, es).context.categories)
    decreases |es|
  {
    if es != [] {
      StepEvolves(s, es[0]);
      RunEvolves(Step(s, es[0]), es[1..]);
      EvolvesTransitive(s.context.categories, Step(s, es[0]).context.categories, Run(s, es).context.categories);
    }
  }

  // ---------------------------------------------------------------------------
  // The state invariant

  /**
   * A question is open exactly in questionReading, waitingForBuzz and answer;
   * a buzzer is on the clock exactly in answer, and it is already excluded;
   * outside a question, and before anyone buzzed, nobody is excluded.
   */
  ghost predicate Consistent(s: Snapshot) {
    var ctx := s.context;
    && (ctx.currentQuestion.Some? <==> s.state in {QuestionReading, WaitingForBuzz, Answer})
    && (ctx.currentBuzzer.Some? <==> s.state == Answer)
    && (s.state == Answer ==> ctx.currentBuzzer.value in ctx.excludedPlayers)
    && (s.state in {Selection, QuestionReading, GameEnd} ==> ctx.excludedPlayers == [])
  }

  lemma InitConsistent(categories: seq<Category>, players: seq<PlayerState>)
    ensures Consistent(Init(categories, players))
  {
  }

  lemma StepConsistent(s: Snapshot, e: Event)
    requires Consistent(s)
    ensures Consistent(Step(s, e))
    ensures Consistent(StepCorrected(s, e))
  {
  }

  lemma {:induction false} RunConsistent(s: Snapshot, es: seq<Event>)
    requires Consistent(s)
    ensures Consistent(Run(s, es))
    decreases |es|
  {
    if es != [] {
      StepConsistent(s, es[0]);
      RunConsistent(Step(s, es[0]), es[1..]);
    }
  }

  /** `gameEnd` is final: no sequence of events leaves it. */
  lemma {:induction false} GameEndIsFinal(s: Snapshot, es: seq<Event>)
    requires s.state == GameEnd
    ensures Run(s, es) == s
    decreases |es|
  {
    if es != [] {
      GameEndIsFinal(Step(s, es[0]), es[1..]);
    }
  }

  /** The corrected table keeps `gameEnd` final too. */
  lemma {:induction false} GameEndIsFinalCorrected(s: Snapshot, es: seq<Event>)
    requires s.state == GameEnd
    ensures RunCorrected(s, es) == s
    decreases |es|
  {
    if es != [] {
      GameEndIsFinalCorrected(StepCorrected(s, es[0]), es[1..]);
    }
  }

  // ---------------------------------------------------------------------------
  // Event by event

  /**
   * HOST_CHOICE is accepted only in selection; it opens the given pair, which
   * is not validated, with no buzzer and nobody excluded.
   */
  lemma HostChoiceEffect(s: Snapshot, ci: int, qi: int)
    ensures Step(s, HostChoice(ci, qi)) ==
      if s.state == Selection then
        Snapshot(QuestionReading, s.context.(currentQuestion := Some((ci, qi)), currentBuzzer := None, excludedPlayers := []))
      else s
  {
  }

  /** With nobody excluded, every player is eligible, in order. */
  lemma {:induction false} NobodyExcluded(players: seq<PlayerState>)
    ensures EligiblePlayers(players, []) == players
  {
    if players != [] {
      NobodyExcluded(players[1..]);
    }
  }

  /** After a question is chosen every player may buzz. */
  lemma AfterHostChoiceAllEligible(s: Snapshot, ci: int, qi: int)
    requires s.state == Selection
    ensures var r := Step(s, HostChoice(ci, qi));
      EligiblePlayers(r.context.players, r.context.excludedPlayers) == s.context.players
  {
    NobodyExcluded(s.context.players);
  }

  /**
   * PLAYER_BUZZ is accepted only in waitingForBuzz: the buzzer goes on the
   * clock and is excluded from the rest of the question. A second buzz, in
   * answer, changes nothing.
   */
  lemma PlayerBuzzEffect(s: Snapshot, pid: int)
    ensures Step(s, PlayerBuzz(pid)) ==
      if s.state == WaitingForBuzz then
        Snapshot(Answer, s.context.(currentBuzzer := Some(pid), excludedPlayers := s.context.excludedPlayers + [pid]))
      else s
  {
  }

  /**
   * ADD_PLAYER is accepted only in selection: it appends the new player with
   * score 0, keeps everyone else in order, and changes nothing else.
   */
  lemma AddPlayerEffect(s: Snapshot, pid: int, name: string)
    ensures var r := Step(s, AddPlayer(pid, name));
      if s.state == Selection then
        && r.state == Selection
        && |r.context.players| == |s.context.players| + 1
        && r.context.players[..|s.context.players|] == s.context.players
        && r.context.players[|s.context.players|] == PlayerState(pid, name, 0)
        && r.context == s.context.(players := r.context.players)
      else r == s
  {
    if s.state == Selection {
      var ps := s.context.players + [PlayerState(pid, name, 0)];
      assert ps[..|s.context.players|] == s.context.players;
    }
  }

  /** `filter(p => p.pid !== pid)` keeps exactly the players with another pid. */
  lemma {:induction false} WithoutPidMembers(ps: seq<PlayerState>, pid: int, p: PlayerState)
    ensures p in WithoutPid(ps, pid) <==> p in ps && p.pid != pid
  {
    if ps != [] {
      WithoutPidMembers(ps[1..], pid, p);
      assert ps == [ps[0]] + ps[1..];
    }
  }

  /** The filter keeps the order: it distributes over concatenation. */
  lemma {:induction false} WithoutPidAppend(a: seq<PlayerState>, b: seq<PlayerState>, pid: int)
    ensures WithoutPid(a + b, pid) == WithoutPid(a, pid) + WithoutPid(b, pid)
  {
    if a == [] {
      assert a + b == b;
    } else {
      assert (a + b)[1..] == a[1..] + b;
      WithoutPidAppend(a[1..], b, pid);
    }
  }

  /** Removing a pid nobody has leaves the roster as it is. */
  lemma {:induction false} WithoutAbsentPid(ps: seq<PlayerState>, pid: int)
    requires forall i :: 0 <= i < |ps| ==> ps[i].pid != pid
    ensures WithoutPid(ps, pid) == ps
  {
    if ps != [] {
      WithoutAbsentPid(ps[1..], pid);
    }
  }

  /**
   * REMOVE_PLAYER is accepted only in selection: the players become exactly
   * those with another pid, in the same order, and nothing else changes.
   */
  lemma RemovePlayerEffect(s: Snapshot, pid: int)
    ensures var r := Step(s, RemovePlayer(pid));
      if s.state == Selection then
        && r.state == Selection
        && r.context == s.context.(players := WithoutPid(s.context.players, pid))
        && forall p :: p in r.context.players <==> p in s.context.players && p.pid != pid
      else r == s
  {
    if s.state == Selection {
      forall p
        ensures p in WithoutPid(s.context.players, pid) <==> p in s.context.players && p.pid != pid
      {
        WithoutPidMembers(s.context.players, pid, p);
      }
    }
  }

  /** Removing a player that was just added with a new pid restores the selection snapshot. */
  lemma AddThenRemove(s: Snapshot, pid: int, name: string)
    requires s.state == Selection
    requires forall i :: 0 <= i < |s.context.players| ==> s.context.players[i].pid != pid
    ensures Step(Step(s, AddPlayer(pid, name)), RemovePlayer(pid)) == s
  {
    var ps := s.context.players;
    WithoutPidAppend(ps, [PlayerState(pid, name, 0)], pid);
    WithoutAbsentPid(ps, pid);
    assert WithoutPid([PlayerState(pid, name, 0)], pid) == [];
  }

  /** A buzzing player is no longer eligible. */
  lemma BuzzerNoLongerEligible(s: Snapshot, pid: int, p: PlayerState)
    requires s.state == WaitingForBuzz && p.pid == pid
    ensures var r := Step(s, PlayerBuzz(pid));
      p !in EligiblePlayers(r.context.players, r.context.excludedPlayers)
  {
    var r := Step(s, PlayerBuzz(pid));
    EligiblePlayersMembers(r.context.players, r.context.excludedPlayers, p);
  }

  /**
   * awardPoints credits the question's value (0 when an index is out of
   * range) to the buzzer alone, and does nothing to the players when there is
   * no buzzer or no question.
   */
  lemma AwardPointsScores(ctx: Context)
    ensures |AwardPoints(ctx).players| == |ctx.players|
    ensures forall i :: 0 <= i < |ctx.players| ==>
      AwardPoints(ctx).players[i] ==
        if ctx.currentBuzzer.Some? && ctx.currentQuestion.Some? && ctx.players[i].pid == ctx.currentBuzzer.value
        then ctx.players[i].(score := ctx.players[i].score +
               PointValue(ctx.categories, ctx.currentQuestion.value.0, ctx.currentQuestion.value.1))
        else ctx.players[i]
    ensures ctx.currentBuzzer.None? || ctx.currentQuestion.None? ==> AwardPoints(ctx).players == ctx.players
    ensures AwardPoints(ctx).categories ==
      if ctx.currentQuestion.None? then ctx.categories
      else MarkAnswered(ctx.categories, ctx.currentQuestion.value.0, ctx.currentQuestion.value.1)
  {
  }

  lemma PointValueOutOfRange(cats: seq<Category>, ci: int, qi: int)
    requires !(0 <= ci < |cats| && 0 <= qi < |cats[ci].questions|)
    ensures PointValue(cats, ci, qi) == 0
  {
  }

  /**
   * HOST_CORRECT in answer awards the points, closes the question and goes to
   * gameEnd when no question remained BEFORE the transition, else to selection.
   */
  lemma HostCorrectEffect(s: Snapshot)
    requires s.state == Answer
    ensures var r := Step(s, HostCorrect);
      && r.state == (if HasQuestionsRemaining(s.context.categories) then Selection else GameEnd)
      && r.context == AwardPoints(s.context).(currentQuestion := None, currentBuzzer := None, excludedPlayers := [])
  {
  }

  /**
   * HOST_INCORRECT in answer: while someone is still eligible, only the buzzer
   * is cleared and the question reopens for buzzing, with no score change;
   * otherwise the question is marked answered and closed, and the machine goes
   * to gameEnd or selection by the same guard as HOST_CORRECT.
   */
  lemma HostIncorrectEffect(s: Snapshot)
    requires s.state == Answer
    ensures var r := Step(s, HostIncorrect);
      if |EligiblePlayers(s.context.players, s.context.excludedPlayers)| > 0 then
        r == Snapshot(WaitingForBuzz, s.context.(currentBuzzer := None))
      else
        && r.state == (if HasQuestionsRemaining(s.context.categories) then Selection else GameEnd)
        && r.context == MarkQuestionAnswered(s.context).(currentQuestion := None, currentBuzzer := None, excludedPlayers := [])
        && r.context.players == s.context.players
  {
  }

  /** Events a state does not list leave the snapshot unchanged. */
  lemma UnlistedEventsIgnored(s: Snapshot, e: Event)
    requires e.UpdatePlayerScore?
      || (e.HostReady? && s.state != QuestionReading)
      || ((e.HostCorrect? || e.HostIncorrect?) && s.state != Answer)
      || ((e.HostChoice? || e.AddPlayer? || e.RemovePlayer?) && s.state != Selection)
    ensures Step(s, e) == s
  {
  }

  // ---------------------------------------------------------------------------
  // The end of the game (see the finding in README.md)

  /**
   * As written, the end-of-question guard is read before the current question
   * is marked answered, so while that question is still open the game never
   * ends: it goes back to selection even when nothing else is left.
   */
  lemma AsWrittenOpenQuestionNeverEnds(s: Snapshot, e: Event)
    requires s.state == Answer && s.context.currentQuestion.Some?
    requires IsOpen(s.context.categories, s.context.currentQuestion.value.0, s.context.currentQuestion.value.1)
    requires e == HostCorrect || e == HostIncorrect
    ensures Step(s, e).state != GameEnd
  {
    HasQuestionsRemainingIff(s.context.categories);
  }

  /** A concrete run: one question, one player, a correct answer, and the game is not over. */
  lemma AsWrittenLastQuestionStaysInSelection()
    ensures var q := Question("q", "a", 100, false);
      var r := Run(Init([Category("C", [q])], [PlayerState(1, "P", 0)]),
                   [HostChoice(0, 0), HostReady, PlayerBuzz(1), HostCorrect]);
      && r.state == Selection
      && !HasQuestionsRemaining(r.context.categories)
  {
    var q := Question("q", "a", 100, false);
    var s0 := Init([Category("C", [q])], [PlayerState(1, "P", 0)]);
    RunFour(s0, HostChoice(0, 0), HostReady, PlayerBuzz(1), HostCorrect);
    var s3 := Step(Step(Step(s0, HostChoice(0, 0)), HostReady), PlayerBuzz(1));
    assert s3.state == Answer && s3.context.currentQuestion == Some((0, 0));
    var cats := Step(s3, HostCorrect).context.categories;
    assert cats == MarkAnswered(s0.context.categories, 0, 0);
    MarkAnsweredAt(s0.context.categories, 0, 0);
    assert [q][0 := q.(answered := true)] == [q.(answered := true)];
    assert cats == [Category("C", [q.(answered := true)])];
    HasQuestionsRemainingIff(cats);
  }

  /**
   * The corrected machine ends the game exactly when, after the question was
   * resolved, no open question is left.
   */
  lemma CorrectedConcludes(s: Snapshot, e: Event)
    requires s.state == Answer
    requires e == HostCorrect || (e == HostIncorrect && !PlayersCanStillBuzz(s.context))
    ensures var r := StepCorrected(s, e);
      && r.state in {Selection, GameEnd}
      && (r.state == GameEnd <==> !exists ci, qi :: IsOpen(r.context.categories, ci, qi))
  {
    HasQuestionsRemainingIff(StepCorrected(s, e).context.categories);
  }

  /** In the corrected machine, resolving the only open question ends the game. */
  lemma CorrectedLastQuestionEnds(s: Snapshot, e: Event, ci: int, qi: int)
    requires s.state == Answer && s.context.currentQuestion == Some((ci, qi))
    requires forall c, q :: IsOpen(s.context.categories, c, q) ==> c == ci && q == qi
    requires e == HostCorrect || (e == HostIncorrect && !PlayersCanStillBuzz(s.context))
    ensures StepCorrected(s, e).state == GameEnd
  {
    var cats := s.context.categories;
    var after := StepCorrected(s, e).context.categories;
    MarkAnsweredEffect(cats, ci, qi);
    assert after == MarkAnswered(cats, ci, qi);
    HasQuestionsRemainingIff(after);
    if exists c, q :: IsOpen(after, c, q) {
      var c, q :| IsOpen(after, c, q);
      assert IsOpen(cats, c, q);
    }
  }

  // ---------------------------------------------------------------------------
  // An end-to-end game

  const Q1 := Question("q1", "a1", 100, false)
  const Q2 := Question("q2", "a2", 200, false)
  const HalfwayBoard := [Category("C", [Q1.(answered := true), Q2])]

  /** The first question of the game below, answered correctly by its only player. */
  lemma TwoQuestionGameFirst()
    ensures Run(Init([Category("C", [Q1, Q2])], [PlayerState(1, "P", 0)]),
                [HostChoice(0, 0), HostReady, PlayerBuzz(1), HostCorrect])
      == Snapshot(Selection, Context(HalfwayBoard, [PlayerState(1, "P", 100)], None, None, []))
  {
    var p := PlayerState(1, "P", 0);
    var s0 := Init([Category("C", [Q1, Q2])], [p]);
    RunFour(s0, HostChoice(0, 0), HostReady, PlayerBuzz(1), HostCorrect);
    var a1 := Step(Step(Step(s0, HostChoice(0, 0)), HostReady), PlayerBuzz(1));
    assert a1.state == Answer && a1.context.currentQuestion == Some((0, 0)) && a1.context.currentBuzzer == Some(1);
    assert AwardPoints(a1.context).players == [p.(score := 100)];
    MarkAnsweredAt(s0.context.categories, 0, 0);
    assert [Q1, Q2][0 := Q1.(answered := true)] == [Q1.(answered := true), Q2];
    assert AwardPoints(a1.context).categories == HalfwayBoard;
  }

  /** The second question, answered incorrectly by the only player. */
  lemma TwoQuestionGameSecond()
    ensures var s1 := Snapshot(Selection, Context(HalfwayBoard, [PlayerState(1, "P", 100)], None, None, []));
      var es := [HostChoice(0, 1), HostReady, PlayerBuzz(1), HostIncorrect];
      var done := [Category("C", [Q1.(answered := true), Q2.(answered := true)])];
      && Run(s1, es) == Snapshot(Selection, Context(done, [PlayerState(1, "P", 100)], None, None, []))
      && RunCorrected(s1, es) == Snapshot(GameEnd, Context(done, [PlayerState(1, "P", 100)], None, None, []))
  {
    var s1 := Snapshot(Selection, Context(HalfwayBoard, [PlayerState(1, "P", 100)], None, None, []));
    RunFour(s1, HostChoice(0, 1), HostReady, PlayerBuzz(1), HostIncorrect);
    var a2 := Step(Step(Step(s1, HostChoice(0, 1)), HostReady), PlayerBuzz(1));
    assert a2 == StepCorrected(StepCorrected(StepCorrected(s1, HostChoice(0, 1)), HostReady), PlayerBuzz(1));
    assert a2.state == Answer && a2.context.excludedPlayers == [1];
    NoEligibleIff(a2.context.players, a2.context.excludedPlayers);
    assert !PlayersCanStillBuzz(a2.context);
    var done := [Category("C", [Q1.(answered := true), Q2.(answered := true)])];
    MarkAnsweredAt(a2.context.categories, 0, 1);
    assert [Q1.(answered := true), Q2][1 := Q2.(answered := true)] == [Q1.(answered := true), Q2.(answered := true)];
    assert MarkQuestionAnswered(a2.context).categories == done;
    HasQuestionsRemainingIff(done);
    HasQuestionsRemainingIff(HalfwayBoard);
    assert IsOpen(HalfwayBoard, 0, 1);
  }

  /**
   * One category with questions worth 100 and 200, one player. The player
   * answers the first correctly (score 100, back to selection), then the
   * second incorrectly: no score is deducted, the question is closed because
   * nobody else can buzz, and the machine returns to selection, where the
   * corrected machine ends the game.
   */
  lemma TwoQuestionGame()
    ensures var s0 := Init([Category("C", [Q1, Q2])], [PlayerState(1, "P", 0)]);
      var s1 := Run(s0, [HostChoice(0, 0), HostReady, PlayerBuzz(1), HostCorrect]);
      var s2 := Run(s1, [HostChoice(0, 1), HostReady, PlayerBuzz(1), HostIncorrect]);
      && s1.state == Selection && s1.context.players == [PlayerState(1, "P", 100)]
      && s2.state == Selection && s2.context.players == [PlayerState(1, "P", 100)]
      && !HasQuestionsRemaining(s2.context.categories)
      && RunCorrected(s1, [HostChoice(0, 1), HostReady, PlayerBuzz(1), HostIncorrect]).state == GameEnd
  {
    TwoQuestionGameFirst();
    TwoQuestionGameSecond();
    HasQuestionsRemainingIff([Category("C", [Q1.(answered := true), Q2.(answered := true)])]);
  }
}
