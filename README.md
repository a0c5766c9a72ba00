# Math game quiz session, modelled in Dafny

The math game asks the player how many addition questions to play, draws
that many random pairs of operands in 1..20, and shows them one at a time.
Each time the player presses Next, the answer is judged against the sum and
counted as correct or wrong. Cancel, or running out of questions, leads to a
result screen. Restart returns to the start screen.

The model has three modules:

- `Wrappers` (`wrappers.dfy`): `Option` stands for the result of
  `toIntOrNull`, and `GetOr` stands for Kotlin's `?:`. `Result` and `Outcome`
  carry the one error the game can hit.
- `Quiz` (`quiz.dfy`): the pure expressions. These are the count defaulting
  of the start screen, the answer judgement of the question screen, and
  `createRandomQuestions`. The random draws are a parameter
  `roll: nat -> Question`, where `roll(i)` is the pair drawn for question `i`.
  Its precondition `FairRolls` says every drawn operand is in 1..20.
- `Session` (`session.dfy`): class `MathGame`. Its fields are the remembered
  variables of `MathGameApp` plus the current navigation destination, an
  enum. There is one method per event. A ghost field `judgements` records
  the verdicts passed to `onNext` since the last restart. The invariant
  `Valid` ties both counters to those verdicts, so
  `correctCount + wrongCount == currentQuestionIndex <= numberOfQuestions == |questions|`
  holds in every state. Every method keeps `Valid` and states its whole new state.
  Each method's precondition names the destination whose screen owns that
  callback. Next and Cancel also need a question on display, because the
  question screen is composed only while one remains.

As an example, take the draws (2,3), (10,10), (1,1) and the answers 5, 1
and 2. Under the judgement at `MainActivity.kt:140-141`, the answers 5 and 2
are correct and 1 is wrong. So `ThreeQuestionGame` ends with two correct and
one wrong.

## Model

| member | source | states |
|---|---|---|
| `Wrappers.Option.GetOr` | app/src/main/java/com/example/mathgame/MainActivity.kt:140 | Kotlin's `?:` on a parse result: the parsed value when there is one, otherwise the given default (0 at line 105, -999999 at line 140) |
| `Quiz.Sum` | app/src/main/java/com/example/mathgame/MainActivity.kt:174-176 | the expected answer to a question whose operands are both drawn from 1..20 lies in 2..40 |
| `Quiz.ParseCount` | app/src/main/java/com/example/mathgame/MainActivity.kt:105 | the count passed to `onStart` is the parsed integer when the text parses and 0 otherwise; a negative parsed count is passed on as is, not defaulted |
| `Quiz.AnswerValue` | app/src/main/java/com/example/mathgame/MainActivity.kt:140 | the answer is the parsed integer when the text parses and -999999 otherwise |
| `Quiz.Judge` | app/src/main/java/com/example/mathgame/MainActivity.kt:140-141 | for a question with operands in 1..20, the judgement is true exactly when the text parsed to `first + second`; text that does not parse is always judged wrong |
| `Quiz.Build` | app/src/main/java/com/example/mathgame/MainActivity.kt:173-177 | the list builder produces exactly `k` elements, and element `i` is the `i`-th pair drawn |
| `Quiz.CreateRandomQuestions` | app/src/main/java/com/example/mathgame/MainActivity.kt:172-178 | it fails with a negative-size error exactly when the count is negative; otherwise it returns `count` questions, question `i` is the `i`-th draw, and every operand is in 1..20 |
| `Session.CountCorrect` | app/src/main/java/com/example/mathgame/MainActivity.kt:61 | the number of correct verdicts is at most the number of verdicts; it equals that number iff all are correct and is 0 iff none is |
| `Session.CountCorrectAppend` | app/src/main/java/com/example/mathgame/MainActivity.kt:60-62 | recording one more verdict raises the correct tally by one exactly when the verdict is "correct" |
| `Session.MathGame.constructor` | app/src/main/java/com/example/mathgame/MainActivity.kt:36-42 | the game begins on the start route with no questions and all counters 0, and the session invariant holds |
| `Session.MathGame.Current` | app/src/main/java/com/example/mathgame/MainActivity.kt:53-55 | a question is shown exactly while the index is below the number of questions; it is the question at the index, and its operands are in 1..20 |
| `Session.MathGame.Start` | app/src/main/java/com/example/mathgame/MainActivity.kt:45-49 | with a non-negative parsed count `n`: `numberOfQuestions == n`, the questions are the `n` drawn pairs, the destination is the question route, and the counters stay at the 0 the start route guarantees; with a negative count: the negative-size error and no state change |
| `Session.MathGame.ShowQuestion` | app/src/main/java/com/example/mathgame/MainActivity.kt:52-73 | while a question remains, it shows the question at the index and changes nothing; otherwise it moves to the result route and changes nothing else |
| `Session.MathGame.Next` | app/src/main/java/com/example/mathgame/MainActivity.kt:60-66 | the verdict is the judgement of the answer against the shown question; exactly one counter goes up by one (the correct one iff the verdict is true); the index goes up by one; the destination becomes the result route exactly when the index reaches the number of questions; the questions are unchanged |
| `Session.MathGame.Cancel` | app/src/main/java/com/example/mathgame/MainActivity.kt:67-69 | the destination becomes the result route; the index, both counters, the questions and their number are unchanged |
| `Session.MathGame.Restart` | app/src/main/java/com/example/mathgame/MainActivity.kt:79-84 | the index and both counters become 0 and the destination becomes the start route; the questions and their number keep their old values |
| `Session.PlayAll` | app/src/main/java/com/example/mathgame/MainActivity.kt:45-73 | for every count `n`, a Start with `n` followed by `n` Next presses ends on the result route; the two counters add up to `n`, and the correct counter is the number of answers judged right against their drawn pairs |
| `Session.ThreeQuestionGame` | app/src/main/java/com/example/mathgame/MainActivity.kt:45-84 | starting with 3, drawing (2,3), (10,10), (1,1) and answering 5, 1, 2 ends on the result route with 2 correct and 1 wrong |
| `Session.EmptyGame` | app/src/main/java/com/example/mathgame/MainActivity.kt:45-73 | text that does not parse as a count gives a game of no questions; the question route redirects straight to the result route with both counters 0 |
| `Session.NegativeCountGame` | app/src/main/java/com/example/mathgame/MainActivity.kt:45-47 | starting with -2 is refused with the negative-size error, and the game stays on the start route |

## Left out

- Compose layout: `StartScreen`, `QuestionScreen` and `ResultScreen` are modelled only through the values they compute and the callbacks they call. Their columns, texts, text fields, buttons, spacing and theme are presentation only, and so is `GreetingPreview`.
- `MainActivity.onCreate` and `enableEdgeToEdge` are platform lifecycle.
- The navigation framework is left out: `NavHost`, `navigate` and the back stack. The destination is a plain field. System back navigation could return to the start screen with non-zero counters, and the model excludes that.
- Recomposition timing of `remember`/`mutableStateOf` is left out. The state variables are plain fields updated in order, and each callback runs to completion. Pressing a button twice before recomposition is not modelled.
- `(1..20).random()` is a library call. Only its range is kept, as the precondition `FairRolls` on the caller-supplied draws. Its distribution is left out.
- `String.toIntOrNull` is a library call. Its result is taken as an `Option<int>` input. In the app it yields only 32-bit values or nothing, and every counter stays at or below `numberOfQuestions`, so the app cannot overflow a 32-bit `Int`. The model also accepts wider counts that the app cannot produce, and it does not model Kotlin's `Int` width.
- Session.MathGame.Start: on a negative count, the app assigns `numberOfQuestions` (line 46) before `List(count)` throws (line 173). The exception is uncaught, so the app stops. The model returns the negative-size error and leaves the state as it was, because no later step can observe the partial write.
- Session.MathGame.Start: a count so large that the list cannot be allocated is not modelled.
