/**
 * The conversion of a parsed game file into categories of questions
 * (apps/server/src/game_file.rs). Reading and deserialising the file is not
 * modelled; the records are given.
 */
module GameFile {
  import opened RustWire

  datatype GameFileClue = GameFileClue(value: u32, clue: string, solution: string)
  datatype GameFileCategory = GameFileCategory(category: string, clues: seq<GameFileClue>)

  /** One clue as a question: the clue is asked, the solution is the answer, and it starts unanswered. */
  function ClueToQuestion(c: GameFileClue): (q: Question)
    ensures !q.answered
  {
    Question(c.clue, c.solution, c.value, false)
  }

  /** `clues.into_iter().map(...).collect()`: one question per clue, in order. */
  function ConvertClues(clues: seq<GameFileClue>): (qs: seq<Question>)
    ensures |qs| == |clues|
    ensures forall i :: 0 <= i < |clues| ==>
      && qs[i].question == clues[i].clue
      && qs[i].answer == clues[i].solution
      && qs[i].value == clues[i].value
      && !qs[i].answered
  {
    if clues == [] then [] else [ClueToQuestion(clues[0])] + ConvertClues(clues[1..])
  }

  /** `From<GameFileCategory> for Category` */
  function FromGameFile(gfc: GameFileCategory): (c: Category)
    ensures c.title == gfc.category
    ensures |c.questions| == |gfc.clues|
    ensures forall i :: 0 <= i < |c.questions| ==> c.questions[i] == ClueToQuestion(gfc.clues[i])
  {
    Category(gfc.category, ConvertClues(gfc.clues))
  }

  // ---------------------------------------------------------------------------
  // The inverse

  function QuestionToClue(q: Question): GameFileClue
  {
    GameFileClue(q.value, q.question, q.answer)
  }

  /** The game-file record a category would have come from. */
  function ToGameFile(c: Category): (gfc: GameFileCategory)
    ensures gfc.category == c.title && |gfc.clues| == |c.questions|
    ensures forall i :: 0 <= i < |gfc.clues| ==> gfc.clues[i] == QuestionToClue(c.questions[i])
  {
    GameFileCategory(c.title, seq(|c.questions|, i requires 0 <= i < |c.questions| => QuestionToClue(c.questions[i])))
  }

  /** Nothing in a game file is lost by the conversion. */
  lemma {:induction false} FromGameFileRoundTrip(gfc: GameFileCategory)
    ensures ToGameFile(FromGameFile(gfc)) == gfc
  {
    var back := ToGameFile(FromGameFile(gfc));
    assert back.clues == gfc.clues by {
      forall i | 0 <= i < |gfc.clues|
        ensures back.clues[i] == gfc.clues[i]
      {
      }
    }
  }

  /** A category with every question still open is exactly what its game-file record converts to. */
  lemma {:induction false} ToGameFileRoundTrip(c: Category)
    requires forall i :: 0 <= i < |c.questions| ==> !c.questions[i].answered
    ensures FromGameFile(ToGameFile(c)) == c
  {
    var back := FromGameFile(ToGameFile(c));
    assert back.questions == c.questions by {
      forall i | 0 <= i < |c.questions|
        ensures back.questions[i] == c.questions[i]
      {
      }
    }
  }

  /** A category with an answered question is not the conversion of any game file. */
  lemma AnsweredIsNotFromFile(c: Category, gfc: GameFileCategory)
    requires exists i :: 0 <= i < |c.questions| && c.questions[i].answered
    ensures FromGameFile(gfc) != c
  {
  }

  /** Converting a list of clues distributes over concatenation: order is kept. */
  lemma {:induction false} ConvertCluesAppend(a: seq<GameFileClue>, b: seq<GameFileClue>)
    ensures ConvertClues(a + b) == ConvertClues(a) + ConvertClues(b)
  {
    if a == [] {
      assert a + b == b;
    } else {
      assert (a + b)[1..] == a[1..] + b;
      ConvertCluesAppend(a[1..], b);
    }
  }
}
