/**
 * The quiz session of `MathGameApp`: the remembered state variables, the
 * current navigation destination, and one method per callback.
 */
module Session {
  import opened Wrappers
  import opened Quiz

  /** The three routes of the navigation graph. */
  datatype Destination = StartScreen | QuestionScreen | ResultScreen

  /** How many of the recorded judgements were "correct". */
  function CountCorrect(judgements: seq<bool>): (k: nat)
    ensures k <= |judgements|
    ensures k == |judgements| <==> forall i :: 0 <= i < |judgements| ==> judgements[i]
    ensures k == 0 <==> forall i :: 0 <= i < |judgements| ==> !judgements[i]
  {
    if judgements == [] then 0
    else (if judgements[0] then 1 else 0) + CountCorrect(judgements[1..])
  }

  /** Recording one more judgement adds one to the tally exactly when it is "correct". */
  lemma {:induction false} CountCorrectAppend(judgements: seq<bool>, b: bool)
    ensures CountCorrect(judgements + [b]) == CountCorrect(judgements) + (if b then 1 else 0)
  {
    if judgements != [] {
      assert (judgements + [b])[1..] == judgements[1..] + [b];
      CountCorrectAppend(judgements[1..], b);
    }
  }

  class MathGame {
    var numberOfQuestions: int
    var currentQuestionIndex: int
    var correctCount: int
    var wrongCount: int
    var questions: seq<Question>
    var destination: Destination
    /** The judgements passed to `onNext` since the last restart, oldest first. */
    ghost var judgements: seq<bool>

    /**
     * The session invariant: the index is bounded by the number of questions,
     * which is the length of the list; every question is a generated one; the
     * counters tally the judgements made so far, one per answered question;
     * the start screen is only shown with everything reset; and the question
     * screen is only reached with a question left or with an empty game.
     */
    ghost predicate Valid()
      reads this
    {
      && 0 <= currentQuestionIndex <= numberOfQuestions
      && |questions| == numberOfQuestions
      && AllInRange(questions)
      && |judgements| == currentQuestionIndex
      && correctCount == CountCorrect(judgements)
      && wrongCount == |judgements| - CountCorrect(judgements)
      && (destination == StartScreen ==> currentQuestionIndex == 0)
      && (destination == QuestionScreen ==>
            currentQuestionIndex < numberOfQuestions || numberOfQuestions == 0)
    }

    /** The initial values of the remembered variables, on the start route. */
    constructor ()
      ensures Valid()
      ensures numberOfQuestions == 0 && questions == []
      ensures currentQuestionIndex == 0 && correctCount == 0 && wrongCount == 0
      ensures destination == StartScreen
    {
      numberOfQuestions := 0;
      currentQuestionIndex := 0;
      correctCount := 0;
      wrongCount := 0;
      questions := [];
      destination := StartScreen;
      judgements := [];
    }

    /**
     * The question the question route shows, if any: the one at the current
     * index while the index is below the number of questions.
     */
    function Current(): (q: Option<Question>)
      reads this
      requires Valid()
      ensures q.Some? <==> currentQuestionIndex < numberOfQuestions
      ensures q.Some? ==> q.value == questions[currentQuestionIndex] && InRange(q.value)
    {
      if currentQuestionIndex < numberOfQuestions then Some(questions[currentQuestionIndex]) else None
    }

    /** The Start button: parse the count, build the questions, go to the question route. */
    method Start(input: Option<int>, roll: nat -> Question) returns (outcome: Outcome<StartError>)
      requires Valid() && destination == StartScreen
      requires FairRolls(roll)
      modifies this
      ensures Valid()
      ensures ParseCount(input) < 0 ==>
        outcome == Fail(NegativeSize(ParseCount(input))) && unchanged(this)
      ensures ParseCount(input) >= 0 ==>
        && outcome == Pass
        && numberOfQuestions == ParseCount(input)
        && questions == CreateRandomQuestions(ParseCount(input), roll).value
        && destination == QuestionScreen
        && currentQuestionIndex == old(currentQuestionIndex) == 0
        && correctCount == old(correctCount) == 0
        && wrongCount == old(wrongCount) == 0
        && judgements == old(judgements)
    {
      var count := ParseCount(input);
      var created := CreateRandomQuestions(count, roll);
      if created.Failure? {
        return Fail(created.error);
      }
      numberOfQuestions := count;
      questions := created.value;
      destination := QuestionScreen;
      outcome := Pass;
    }

    /**
     * Composing the question route: show the current question, or, when none
     * is left, navigate to the result route.
     */
    method ShowQuestion() returns (shown: Option<Question>)
      requires Valid() && destination == QuestionScreen
      modifies this
      ensures Valid()
      ensures shown == old(Current())
      ensures destination == if shown.Some? then QuestionScreen else ResultScreen
      ensures numberOfQuestions == old(numberOfQuestions) && questions == old(questions)
      ensures currentQuestionIndex == old(currentQuestionIndex)
      ensures correctCount == old(correctCount) && wrongCount == old(wrongCount)
      ensures judgements == old(judgements)
    {
      if currentQuestionIndex < numberOfQuestions {
        shown := Some(questions[currentQuestionIndex]);
      } else {
        shown := None;
        destination := ResultScreen;
      }
    }

    /**
     * The Next button: judge the answer text against the shown question, count
     * it as correct or wrong, advance the index, and go to the result route
     * after the last question.
     */
    method Next(input: Option<int>) returns (isCorrect: bool)
      requires Valid() && destination == QuestionScreen
      requires currentQuestionIndex < numberOfQuestions
      modifies this
      ensures Valid()
      ensures isCorrect == Judge(input, old(questions[currentQuestionIndex]))
      ensures correctCount == old(correctCount) + (if isCorrect then 1 else 0)
      ensures wrongCount == old(wrongCount) + (if isCorrect then 0 else 1)
      ensures currentQuestionIndex == old(currentQuestionIndex) + 1
      ensures correctCount + wrongCount == currentQuestionIndex
      ensures judgements == old(judgements) + [isCorrect]
      ensures destination ==
        if currentQuestionIndex >= numberOfQuestions then ResultScreen else QuestionScreen
      ensures numberOfQuestions == old(numberOfQuestions) && questions == old(questions)
    {
      isCorrect := Judge(input, questions[currentQuestionIndex]);
      CountCorrectAppend(judgements, isCorrect);
      if isCorrect {
        correctCount := correctCount + 1;
      } else {
        wrongCount := wrongCount + 1;
      }
      judgements := judgements + [isCorrect];
      currentQuestionIndex := currentQuestionIndex + 1;
      if currentQuestionIndex >= numberOfQuestions {
        destination := ResultScreen;
      }
    }

    /** The Cancel button: go to the result route and change nothing else. */
    method Cancel()
      requires Valid() && destination == QuestionScreen
      requires currentQuestionIndex < numberOfQuestions
      modifies this
      ensures Valid()
      ensures destination == ResultScreen
      ensures numberOfQuestions == old(numberOfQuestions) && questions == old(questions)
      ensures currentQuestionIndex == old(currentQuestionIndex)
      ensures correctCount == old(correctCount) && wrongCount == old(wrongCount)
      ensures judgements == old(judgements)
    {
      destination := ResultScreen;
    }

    /**
     * The Restart button: reset the index and both counters and go to the
     * start route; the questions and their number stay until the next Start.
     */
    method Restart()
      requires Valid() && destination == ResultScreen
      modifies this
      ensures Valid()
      ensures currentQuestionIndex == 0 && correctCount == 0 && wrongCount == 0
      ensures destination == StartScreen
      ensures numberOfQuestions == old(numberOfQuestions) && questions == old(questions)
      ensures judgements == []
    {
      currentQuestionIndex := 0;
      correctCount := 0;
      wrongCount := 0;
      judgements := [];
      destination := StartScreen;
    }
  }

  /** The verdicts a player earns by answering `answers[j]` to the `j`-th drawn pair. */
  function Verdicts(answers: seq<Option<int>>, roll: nat -> Question): (v: seq<bool>)
    ensures |v| == |answers|
    ensures forall j :: 0 <= j < |answers| ==> v[j] == Judge(answers[j], roll(j))
  {
    seq(|answers|, j requires 0 <= j < |answers| => Judge(answers[j], roll(j)))
  }

  /**
   * A whole game of `count` questions: Start with `count`, then one Next per
   * answer. After exactly `count` presses the game is on the result route,
   * the correct counter is the number of right answers, and the two
   * counters add up to `count`.
   */
  method PlayAll(count: nat, roll: nat -> Question, answers: seq<Option<int>>)
    returns (correct: int, wrong: int, finalDestination: Destination)
    requires FairRolls(roll)
    requires |answers| == count
    ensures finalDestination == ResultScreen
    ensures correct + wrong == count
    ensures correct == CountCorrect(Verdicts(answers, roll))
  {
    var game := new MathGame();
    var outcome := game.Start(Some(count), roll);
    var shown := game.ShowQuestion();
    var i := 0;
    while i < count
      invariant 0 <= i <= count
      invariant game.Valid()
      invariant game.numberOfQuestions == count
      invariant game.questions == CreateRandomQuestions(count, roll).value
      invariant game.currentQuestionIndex == i
      invariant game.judgements == Verdicts(answers[..i], roll)
      invariant i < count ==> game.destination == QuestionScreen
      invariant i == count ==> game.destination == ResultScreen
    {
      var judged := game.Next(answers[i]);
      assert answers[..i + 1] == answers[..i] + [answers[i]];
      i := i + 1;
    }
    assert answers[..count] == answers;
    correct, wrong, finalDestination := game.correctCount, game.wrongCount, game.destination;
  }

  /** The pair the scenario's generator draws for question `i`. */
  function ScenarioRoll(i: nat): Question {
    if i == 0 then Question(2, 3) else if i == 1 then Question(10, 10) else Question(1, 1)
  }

  /**
   * Three questions (2,3), (10,10), (1,1) answered 5, 1 and 2: the second
   * answer is wrong, the other two are right, and the game ends on the
   * result route.
   */
  method ThreeQuestionGame() returns (correct: int, wrong: int, finalDestination: Destination)
    ensures correct == 2 && wrong == 1 && finalDestination == ResultScreen
  {
    var game := new MathGame();
    var outcome := game.Start(Some(3), ScenarioRoll);
    assert game.questions == [Question(2, 3), Question(10, 10), Question(1, 1)];
    var shown := game.ShowQuestion();
    var judged := game.Next(Some(5));
    judged := game.Next(Some(1));
    assert !judged;
    judged := game.Next(Some(2));
    assert judged;
    correct, wrong, finalDestination := game.correctCount, game.wrongCount, game.destination;
  }

  /**
   * Text that is not a number asks for zero questions: the question route
   * redirects to the result route at once, with both counters 0.
   */
  method EmptyGame() returns (correct: int, wrong: int, finalDestination: Destination)
    ensures correct == 0 && wrong == 0 && finalDestination == ResultScreen
  {
    var game := new MathGame();
    var outcome := game.Start(None, ScenarioRoll);
    var shown := game.ShowQuestion();
    correct, wrong, finalDestination := game.correctCount, game.wrongCount, game.destination;
  }

  /** A negative count is refused, and the game stays on the start route. */
  method NegativeCountGame() returns (outcome: Outcome<StartError>, finalDestination: Destination)
    ensures outcome == Fail(NegativeSize(-2)) && finalDestination == StartScreen
  {
    var game := new MathGame();
    outcome := game.Start(Some(-2), ScenarioRoll);
    finalDestination := game.destination;
  }
}
