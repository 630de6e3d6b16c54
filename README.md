# MathTests quiz sessions, modelled in Dafny

This project models the `MathTests` class of mathTests.js. The class is the whole logic of a small
arithmetic quiz for grades 1 to 5. It has two parts.

- **Problem generator.** `generateMathProblem(difficulty)` turns a difficulty tier into a
  two-operand problem (`+`, `-` or `×`) with its text and its integer answer.
  `getDifficultyDescription` gives the fixed description of each tier.
- **Session.** A session is a fixed number of exercises at one difficulty. Answers are scored one
  by one. The session finishes by itself when the target is reached, and the correct answers of
  finished sessions are added up in `problemsSolved`.

The files:

- `problems.dfy` (module `Problems`): the problem as the source returns it,
  `Problem(text, answer)`. It also holds the operands-and-operator value `Expr` the text is
  rendered from, the rendering `"<a> <op> <b> = ?"` (JavaScript's decimal notation of a
  non-negative integer), and `Parse`, which reads such a text back. `ParseRender` proves that
  rendering loses nothing, so "the answer matches the text" is a statement about the text itself.
- `generator.dfy` (module `Generator`): the tier normalisation, the five tiers' `switch`, and the
  descriptions. Each `Math.random()` result is an input: a real `r` with `0 <= r < 1`. The draws
  are consumed in the source's order: tier 1 draws twice, tiers 2 to 5 draw three times (the
  operator selector, then the first operand, then the second). Every operand is computed exactly
  as the source writes it, `Math.floor(r * span) + 1`. In tier 1 the span of the second operand is
  `10 - num1`, which can be 0, and then the operand is always 1. The model gets this case from
  the formula rather than writing it as a special case. `InTier` describes, tier by tier, the set
  of problems each grade allows. `Draw` always lands in that set (its ensures), and every member
  of the set is drawn by some draws (`EveryTierProblemIsDrawn`). So `InTier` is exactly the range
  of the generator.
- `session.dfy` (module `Session`): class `MathTests`, with the source's fields, and methods that
  update them in place. `Valid()` is the invariant every method keeps: `0 <= correctAnswers <=
  exerciseCount`, `problemsSolved` equals the sum of the correct-answer counts of all finishes
  since construction or reset (kept in the ghost field `finished`), and `exercisesPerSession` is
  defined whenever a problem is pending, and a problem is pending whenever the session is active. `InSession()` is the state of a running session:
  `exerciseCount < exercisesPerSession` and a problem is waiting for its answer. Start enters it
  when the target is at least 1. Each submission either stays in it or completes the session with
  `exerciseCount == exercisesPerSession` exactly. `TwoExerciseSession` is an example client,
  following a two-exercise session from start to finish.

Behaviours of the code that its comments and names do not suggest; the model follows the code:

- **Tier-1 sums.** Tier 1 is commented and described as "Addition up to 10" (mathTests.js:31,
  229). The code draws `num2 = floor(r * (10 - num1)) + 1`, and for `num1 = 10` that is
  always 1. Tier 1 therefore also asks `10 + 1 = ?`, answer 11. The model proves sums of at
  most 10 when the first operand is at most 9, and exactly `10 + 1` otherwise.
- **Raw difficulty.** The session stores the difficulty it was started with unnormalised, for
  example 7. Each new problem normalises it again.
- **Reset.** `reset` restores the six fields the constructor sets but leaves
  `exercisesPerSession` as it was.
- **Submitting after completion.** Submit has no guard on `sessionActive`. It fails, with a
  TypeError, whenever `currentProblem` is `null`: before the first start and after `reset`
  (mathTests.js:190). A submission after completion counts once more and adds to
  `problemsSolved` once more.
- **Calling finishMathSession directly.** The submission that completes a session already calls
  `finishMathSession`. Calling it again adds the correct answers a second time: in
  `TwoExerciseSession` the total becomes 2, not 1.
- **Any target.** The session target is not checked. A target of 0 or less completes the session
  at the first submission.

## Model

| member | source | states |
|---|---|---|
| `Problems.Render` | mathTests.js:34 | The template `"${num1} + ${num2} = ?"` (and its `-` and `×` forms at lines 47 and 67); that no information is lost is `ParseRender` |
| `Problems.Eval` | mathTests.js:35 | The `answer = num1 + num2` / `num1 - num2` / `num1 * num2` lines (also 43, 48, 68); the tie between answer and text is `ProblemOfReadsBack` |
| `Problems.ParseRender` | mathTests.js:34 | The problem text `"<a> <op> <b> = ?"` can be read back: parsing it returns exactly the operands and operator it was rendered from |
| `Problems.ProblemOfReadsBack` | mathTests.js:34-35 | A problem's text parses, and its answer is the value (a+b, a-b or a×b) of the expression the text shows |
| `Generator.NormalizeDifficulty` | mathTests.js:25-28 | The tier is always in [1,5]; it is the difficulty itself when that is in [1,5], and 1 for every other value (0 and negatives included) |
| `Generator.Pick` | mathTests.js:32-33 | `Math.floor(r * span) + 1` for a draw `r` in [0,1) lies in [1, span] when span >= 1, and is 1 when span is 0 |
| `Generator.RollFor` | mathTests.js:40 | Every value in [1, span] is the result of `Math.floor(r * span) + 1` for some draw r in [0,1), so Pick's range is exact |
| `Generator.Draw` | mathTests.js:30-111 | Every problem the five-tier switch draws is one the tier allows (`InTier`): the tier's operators, operand ranges and sum ceilings |
| `Generator.EveryTierProblemIsDrawn` | mathTests.js:30-111 | Conversely, every problem a tier allows is produced by some draws; the selector thresholds 0.7, 0.5/0.8, 0.4/0.7, 0.3/0.6 pick the operator |
| `Generator.GenerateMathProblem` | mathTests.js:22-114 | generateMathProblem on explicit draws; its contract is stated by `AnswerMatchesText` (text, answer, tier range), `InvalidDifficultyIsTierOne`, and the corollaries below |
| `Generator.AnswerMatchesText` | mathTests.js:30-113 | Every generated problem's text parses as `"<a> <op> <b> = ?"` with op one of `+ - ×`, the answer is the value of that expression, and the expression is within the normalised tier |
| `Generator.InvalidDifficultyIsTierOne` | mathTests.js:26-28 | A difficulty outside [1,5] generates exactly the problem tier 1 generates from the same draws |
| `Generator.SubtractionIsNonNegative` | mathTests.js:45-48 | At every tier a subtraction has 1 <= b <= a, so its answer lies in [0, a-1] (as at lines 60-63, 80-83 and 100-103 too) |
| `Generator.AdditionCeilings` | mathTests.js:31-43 | Sums are at most 20/50/100/200 in tiers 2-5 (also lines 55-58, 75-78, 95-98); in tier 1 at most 10 when a <= 9, and exactly 10 + 1 = 11 when a = 10, so at most 11 |
| `Generator.OperatorsAndTables` | mathTests.js:64-108 | Tier 1 only adds, tier 2 never multiplies, and multiplication operands lie in [1,5], [1,6] and [1,10] in tiers 3, 4 and 5 |
| `Generator.GetDifficultyDescription` | mathTests.js:227-235 | The description of any key starts with "Grade t:" for t the normalised tier |
| `Generator.DescriptionDefaultsToTierOne` | mathTests.js:235 | An unknown key gets the tier-1 description, and the five tiers have five different descriptions |
| `Session.MathTests.constructor` | mathTests.js:8-15 | A new object has no problem, zero counters, no active session, difficulty 1, no target, and the statistics `FreshStats` |
| `Session.MathTests.StartMathExercise` | mathTests.js:121-130 | Session active, both counters zero, the raw difficulty and the target stored, a freshly generated problem stored and returned, the running total unchanged; the session is running (`InSession`) iff the target is at least 1 |
| `Session.MathTests.SubmitMathAnswer` | mathTests.js:137-166 | exerciseCount grows by exactly 1 and correctAnswers by 1 iff the answer equals the pending answer; complete iff exerciseCount >= target; otherwise a new problem at the selected difficulty becomes current and is returned, total untouched; when complete the session ends and the total grows by exactly correctAnswers; a running session either stays running or completes with exerciseCount == target |
| `Session.MathTests.FinishMathSession` | mathTests.js:172-184 | Session inactive, correctAnswers folded into the running total, every other field unchanged, and the summary reports target, correct answers, accuracy and the new total |
| `Session.Accuracy` | mathTests.js:179 | The percentage is defined iff the target is defined and non-zero; it lies in [0,100] when 0 <= correct <= target, is 100 for all correct and 0 for none |
| `Session.MathTests.Reset` | mathTests.js:189-196 | The six constructor fields are restored (total included), so the statistics equal a new object's; the target is left as it was |
| `Session.StatsAreConsistent` | mathTests.js:202-210 | The snapshot's problemsSolved is the non-negative sum of the correct answers of the finished sessions (by induction, `SumNonNegative`); its 0 <= correctAnswers <= exerciseCount is the `Valid()` conjunct carried over to the snapshot |
| `Session.MathTests.GetSessionStats` | mathTests.js:202-210 | A read-only snapshot of the five fields; its properties are stated by `StatsAreConsistent`, and by the constructor's and `Reset`'s `GetSessionStats() == FreshStats` |
| `Session.MathTests.SetDifficulty` | mathTests.js:216-220 | The selected difficulty becomes d when 1 <= d <= 5 and is unchanged otherwise; no other field changes |

## Left out

- Randomness: each `Math.random()` result is a parameter. The model says which problems are
  possible, not how likely they are: no uniformity, and no 70/30 or 50/30/20 split.
- Floating point: draws, thresholds and the accuracy are exact reals. Double rounding and the
  accuracy's NaN and Infinity are not modelled; the accuracy is `None` where JavaScript divides by
  an undefined or zero target.
- JavaScript coercion: difficulties, targets and answers are integers. An undefined or NaN
  difficulty, which the source also turns into tier 1, is not modelled, and neither is a
  non-integer such as 2.5, which passes the range check, matches no `case` and yields an
  undefined problem. Answers are compared as integers, as the strict `===` compares numbers.
- SubmitMathAnswer: requires a pending problem. In the source, a submission while
  `currentProblem` is `null` (before the first start, and after `reset`, mathTests.js:190) is a
  TypeError, which the model does not describe. It also takes the draws for a next problem even
  when the submission completes the session and no draw is made.
- The module export and the environment detection (mathTests.js:240-244) are not modelled.
