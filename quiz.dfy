/**
 * The pure parts of the math game: reading the requested number of questions,
 * judging an answer, and building the list of addition questions.
 */
module Quiz {
  import opened Wrappers

  /** Lowest and highest operand that `(1..20).random()` can produce. */
  const MinOperand: int := 1
  const MaxOperand: int := 20

  /** What the answer field's text becomes when it is not an integer. */
  const Sentinel: int := -999999

  /** One addition problem `first + second = ?` (a Kotlin `Pair<Int, Int>`). */
  datatype Question = Question(first: int, second: int)

  /** Both operands lie in the range the generator draws from. */
  predicate InRange(q: Question) {
    MinOperand <= q.first <= MaxOperand && MinOperand <= q.second <= MaxOperand
  }

  /** The expected answer to a question; for a generated one it lies in 2..40. */
  function Sum(q: Question): (s: int)
    ensures InRange(q) ==> 2 * MinOperand <= s <= 2 * MaxOperand
  {
    q.first + q.second
  }

  /** Why a game cannot start: `List(count)` refuses a negative size. */
  datatype StartError = NegativeSize(count: int)

  /**
   * The count handed to `onStart` when the Start button is pressed:
   * the parsed text, or 0 when the text is not an integer.
   */
  function ParseCount(input: Option<int>): (count: int)
    ensures input.Some? ==> count == input.value
    ensures input.None? ==> count == 0
  {
    input.GetOr(0)
  }

  /** The answer compared with the sum: the parsed text, or the sentinel. */
  function AnswerValue(input: Option<int>): (v: int)
    ensures input.Some? ==> v == input.value
    ensures input.None? ==> v == Sentinel
  {
    input.GetOr(Sentinel)
  }

  /**
   * The judgement the Next button passes to `onNext`. For a generated
   * question it is true exactly when the text parsed to the sum; text that
   * is not an integer is then always wrong, since the sentinel is no sum.
   */
  function Judge(input: Option<int>, q: Question): (correct: bool)
    ensures InRange(q) ==> (correct <==> input == Some(Sum(q)))
    ensures InRange(q) && input.None? ==> !correct
  {
    AnswerValue(input) == Sum(q)
  }

  /** Every question of a list is a generated one. */
  predicate AllInRange(qs: seq<Question>) {
    forall i :: 0 <= i < |qs| ==> InRange(qs[i])
  }

  /** A source of random draws: the `i`-th draw is the pair `roll(i)`. */
  ghost predicate FairRolls(roll: nat -> Question) {
    forall i: nat :: InRange(roll(i))
  }

  /** The first `k` elements of `List(count) { ... }`, built index by index. */
  function Build(k: nat, roll: nat -> Question): (qs: seq<Question>)
    ensures |qs| == k
    ensures forall i :: 0 <= i < k ==> qs[i] == roll(i)
  {
    if k == 0 then [] else Build(k - 1, roll) + [roll(k - 1)]
  }

  /**
   * `createRandomQuestions(count)`: `count` questions, the `i`-th one made
   * from the `i`-th pair of draws, or the error `List(count)` raises for a
   * negative count.
   */
  function CreateRandomQuestions(count: int, roll: nat -> Question): (r: Result<seq<Question>, StartError>)
    requires FairRolls(roll)
    ensures r.Failure? <==> count < 0
    ensures r.Failure? ==> r.error == NegativeSize(count)
    ensures r.Success? ==> |r.value| == count && AllInRange(r.value)
    ensures r.Success? ==> forall i :: 0 <= i < count ==> r.value[i] == roll(i)
  {
    if count < 0 then Failure(NegativeSize(count)) else Success(Build(count, roll))
  }
}
