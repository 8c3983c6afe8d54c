# Coordinate Catch: question generator and round controller

This project models the game logic of *Coordinate Catch*, a browser quiz on
the coordinate plane (`script.js`). It covers two parts:

- The **question generator** (`generateQuestion`, `shuffleArray`). It draws a
  template (identify, quadrant, axis, x-coordinate or y-coordinate) and a
  point. It then computes the correct answer and three distractors, and
  shuffles the four choices with a Fisher–Yates pass.
- The **round controller** (`startGame`, `generateQuestions`,
  `displayQuestion`, `checkAnswer`, the body of the 2.5 s timeout, `endGame`,
  `toggleLanguage`). These handlers act on the module-level state:
  `currentQuestion`, `score`, `answered`, `questions` and `isSpanish`.

Modelling choices:

- Every value taken from `Math.random` is a field of `Generator.Draws`: the
  template index, the coins, the raw draws in `0..8` and the shuffle indices
  `j` with `0 <= j <= i`. Generating a question is therefore a pure, total
  function.
- Answer texts are the datatype `Generator.Answer`: a pair, a number, a
  localized quadrant name or a localized axis name. The source compares
  strings. Formatting an integer is injective, and `-0` never arises because
  negated coordinates are nonzero. So string equality is datatype equality.
- Prompt and explanation texts are labels indexed by language and question
  type. The question records its type and language.
- The page is reduced to which screen is active (start, game, end).
- Each pending `setTimeout` callback is counted in `pendingAdvances`. A
  `Timeout` event runs one callback body (`Round.Advance`). Restarting does
  not cancel pending callbacks, because the source does not.
- `Round.Enabled` says when each event can occur. The start and restart
  buttons live on the start and end screens. The choice buttons are the
  current question's answers and exist only on the game screen. The language
  button is always available. The page markup itself is not part of this
  model, so these placements are an assumption.

Notes on the source's behaviour:

- A zero drawn for an axis point becomes 1, never -1 (script.js:154, 161).
- Identify and coordinate distractors are not filtered. The choices can repeat
  the correct answer (`Generator.DiagonalIdentifyOffersCorrectTwice`).
- `toggleLanguage` regenerates the batch whenever the game screen is active
  (script.js:384-386). It has no other test for an ongoing round.
- The score is raised at once on a correct answer (script.js:287), but the
  index only moves when the timeout fires (script.js:300). In between, the
  score exceeds the index by one. The proved bound is therefore
  `score <= currentQuestion + (1 if answered else 0)`, together with
  `score <= 10`.
- These bounds hold for the corrected toggle only (see Findings).

`Round.Step` uses the corrected `Round.ToggleLanguage`. The source's version
is `Round.ToggleLanguageAsWritten`, and module `ToggleFinding` compares the two.

## Model

| member | source | states |
|---|---|---|
| FisherYates.Swap | script.js:223 | The destructuring assignment exchanges positions `i` and `j` and keeps the length. |
| FisherYates.SwapKeepsOthers | script.js:223 | The exchange leaves every other position unchanged. |
| FisherYates.SwapPermutes | script.js:223 | The exchange keeps the multiset of elements. |
| FisherYates.ShuffleDown | script.js:221-224 | The remaining iterations of the pass keep the length. |
| FisherYates.ShuffleDownKeepsSettled | script.js:221-224 | Once the cursor has passed a position, later iterations never change it. |
| FisherYates.ShuffleDownPermutes | script.js:221-224 | The remaining swaps of the pass keep the multiset of elements. |
| FisherYates.Shuffle | script.js:220-225 | The shuffled choices are a permutation of the input: same length, same multiset. |
| FisherYates.ShuffleArray | script.js:220-225 | The in-place loop computes exactly `Shuffle` and preserves the multiset of elements. |
| FisherYates.LastPositionIsFirstDraw | script.js:221-223 | The last position ends up holding the element picked by the first draw; later steps never touch it. |
| FisherYates.EveryPositionReachable | script.js:220-225 | Any element can end at any position for some legal draws. |
| Generator.TemplateTableRoundTrip | script.js:143 | Each of the five indices the draw can pick names a different question type; with `TemplateIndex` the table is a bijection. |
| Generator.TemplateIndex | script.js:142-143 | Every question type sits at an index 0..4 of the template table, so every type can be drawn. |
| Generator.Coordinate | script.js:170-173 | A coordinate off the axes lies in [-4,4] and is nonzero. A nonzero draw is kept, and a drawn 0 becomes -1 exactly when the coin says so, otherwise 1. |
| Generator.AxisCoordinate | script.js:153-154 | The nonzero coordinate of an axis point lies in [-4,4] and is nonzero. A drawn 0 becomes 1. |
| Generator.Point | script.js:149-174 | Axis points have exactly one zero coordinate; the point is on the y-axis iff the first coin says so; a raw 0 gives (0,1) or (1,0). All other points have both coordinates nonzero in [-4,4]. |
| Generator.QuadrantOf | script.js:185-193 | For nonzero coordinates the named quadrant has the point's sign pattern, no other quadrant does, and IV is exactly (+,-). |
| Generator.WithoutConcat | script.js:195-196 | The filter works element by element: filtering a concatenation concatenates the filtered parts, so the kept names stay in order. |
| Generator.Without | script.js:194-196 | The filter removes every occurrence of the correct name and keeps everything else. |
| Generator.CorrectAnswer | script.js:155-201 | Identify: the point's pair. Quadrant: a localized quadrant name whose sign pattern the point has whenever it is off the axes. Axis: the y-axis iff x is 0, else the x-axis. Coordinate questions: the asked coordinate. |
| Generator.AxisWrongAnswers | script.js:155-166 | Axis questions get three distractors, and the correct axis is never one of them. |
| Generator.QuadrantNameOnce | script.js:193-195 | Each localized quadrant name occurs exactly once in the list that the filter starts from. |
| Generator.WrongAnswers | script.js:149-202 | There are always three distractors. For quadrant and axis questions none of them is the correct answer. |
| Generator.BaseChoicesSplit | script.js:206 | The unshuffled list has four entries: the correct answer once more than the distractors, as a multiset. |
| Generator.BaseChoicesFit | script.js:149-206 | The correct answer plus the first three distractors are four choices that fit the type: all four quadrant names, the right axis exactly once, or the listed pair and number variants. |
| Generator.GenerateQuestion | script.js:141-217 | The question has the drawn template's type and the requested language. Its point is valid for the type. It has four choices, the correct one among them, and the choices fit the type. |
| Generator.EveryValidPointIsDrawn | script.js:149-174 | Every point valid for a question type is produced by some draws, so the generated points are exactly the valid ones. |
| Generator.DiagonalIdentifyOffersCorrectTwice | script.js:177-183 | On the diagonal (x = y) an identify question offers the correct pair twice. |
| Round.Initial | script.js:7-15 | Before any round the start screen shows, with score 0 and nothing pending. |
| Round.GenerateQuestions | script.js:306-311 | One question per draw; every question is well formed and in the requested language. |
| Round.DisplayQuestion | script.js:243-249 | Past the last question the end screen is shown; otherwise the current question is re-opened (`answered` false). Index, score and batch are untouched. |
| Round.StartGame | script.js:314-327 | Index 0, score 0, unanswered, a batch of ten well-formed questions in the current language, the game screen. The language and pending advances are unchanged. |
| Round.CheckAnswer | script.js:270-302 | An answered question ignores further answers. Otherwise the question becomes answered, the score rises by exactly 1 iff the choice is the correct answer, and one advance is scheduled. Nothing else changes. |
| Round.Advance | script.js:299-302 | The index rises by one and one pending advance is used up. Past the last question the end screen shows; otherwise the next question is open. |
| Round.ToggleLanguageAsWritten | script.js:371-388 | The language flips; score, index and pending advances are kept. On the game screen the batch is replaced by ten new questions in the new language and the current question is re-opened. |
| Round.ToggleLanguage | script.js:371-388 | Same as the source's toggle, except that `answered` is kept. |
| Round.EndTier | script.js:336-345 | Score 10 gives perfect; 8, 9 or any score above 10 gives excellent; 6-7 gives good; 5 or less gives keep trying. |
| Round.Confetti | script.js:348-351 | Confetti iff the score is at least 6, i.e. iff the tier is above keep trying. |
| Round.TierMonotone | script.js:336-345 | For scores up to 10 a higher score never gets a lower tier. |
| Round.Step | script.js:391-393 | One event of the corrected controller. Only the language button changes the language. A restart zeroes score and index. Otherwise score and index never go back and rise by at most one. Only a correct answer raises the score, and an answer never moves the index. |
| Round.CorrectChoiceEnabled | script.js:256-263 | On the game screen a button for the correct answer is always on show. |
| Round.RunStep | script.js:391-393 | A run takes an enabled first event's step, then handles the rest. |
| Round.RunConcat | script.js:391-393 | Events are handled one after another: two runs in a row are the run of the concatenated events. |
| Round.StepPreservesInv | script.js:243-388 | Each event of the corrected controller keeps the invariant: score within answered questions and within 10, index within the round, at most one advance pending, and on-screen questions well formed in the current language. |
| Round.RunPreservesInv | script.js:243-388 | For the corrected controller (`Round.Step`), any sequence of events keeps the invariant. |
| Round.ScoreWithinRound | script.js:270-302 | For the corrected controller (`Round.Step`), from page load and whatever happens, the score and index stay at most 10 and at most one advance is pending. The perfect message therefore means a full score. |
| Round.AnswerScoresOnce | script.js:270-272 | A second answer to the same question changes nothing, so one question scores at most one point. |
| Round.AnswerCorrectlyScores | script.js:270-302 | A correct answer to an open question followed by its timeout adds one point and moves to the next question. The next question is open, or the round has ended. |
| Round.PerfectPlayEndsPerfect | script.js:243-302 | From an open question with a full score so far, answering each remaining question correctly and letting its timeout fire ends on the end screen with score 10. |
| Round.PerfectRound | script.js:314-351 | Starting a round and answering all ten questions correctly ends with score 10, the perfect tier and confetti. |
| ToggleFinding.ToggleReopensAnsweredQuestion | script.js:384-386 | As written: answer correctly, toggle, answer correctly again. The same index scores twice, two advances are pending, and the invariant fails. |
| ToggleFinding.ToggleKeepsAnsweredQuestion | script.js:384-386 | Corrected: the same inputs score once, leave one advance pending and keep the invariant. |
| ToggleFinding.AnswerAndToggle | script.js:270-302 | As written: k rounds of answering and toggling on one question add k points and k pending advances without moving the index. |
| ToggleFinding.Timeouts | script.js:299-302 | k timeouts move the index by k, keep the score, and end the round once the index reaches 10. |
| ToggleFinding.ElevenPointRound | script.js:336-345 | As written, a round can end with 11 points out of 10 and the excellent message instead of perfect. |
| ToggleFinding.LastQuestionElevenPoints | script.js:270-302 | As written, with nine points on the last question, answering, toggling and answering again lets the first timeout end the round at 11/10 with the excellent message. |

## Left out

- `initGrid`, `positionPoint` and `createConfetti`: element creation, pixel
  layout (division on `offsetWidth`) and random styling. Confetti is modelled
  only as the decision `Round.Confetti`.
- The DOM side of `checkAnswer`, `displayQuestion`, `startGame`, `endGame` and
  `toggleLanguage`: button styling and disabling, feedback text, score and
  question-number display, and the `.lang-en`/`.lang-es` visibility.
- The event-listener wiring (script.js:391-397). It is replaced by the events
  of `Round.Event` and the assumptions in `Round.Enabled`.
- `Math.random` itself. Draws are parameters, so the distribution and the
  uniformity of the shuffle are not modelled. The order of the calls is not
  modelled either.
- The 2.5 s delay and timing. Pending callbacks may fire at any later step,
  which allows every order the real timer allows.
- The localized strings of the template table (script.js:37-92) and of the end
  messages. These are labels indexed by language and type, or tiers.
- Uniqueness of identify and coordinate distractors. The source does not
  ensure it.

## Findings

| source | as written | input that shows it | evidently intended | confidence | as-written member | corrected member |
|---|---|---|---|---|---|---|
| script.js:384-386 | `toggleLanguage` calls `displayQuestion`, which sets `answered = false` while the advance scheduled by the last answer is still pending. | With nine points on question 10, answer it correctly, toggle the language and answer the new question 10 correctly, all within 2.5 s. The first timeout then ends the round at 11/10 with the excellent message (`ToggleFinding.LastQuestionElevenPoints`). The same three clicks on question 1 give score 2 at index 0 with two advances pending. | Each question is scored at most once, at most one advance is pending, and the score never exceeds 10. | medium; not executed | ToggleFinding.ToggleReopensAnsweredQuestion | Round.ToggleLanguage |
