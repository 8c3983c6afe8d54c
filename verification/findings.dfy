/**
 `toggleLanguage` as written re-runs `displayQuestion`, which clears
 `answered` while the advance scheduled by the last answer is still pending.
 The current question can then be answered and scored again, every extra
 answer schedules one more advance, and the score can pass the round length.
 The corrected toggle in module Round keeps `answered`; this module shows the
 difference on the same inputs.
 */
module ToggleFinding {
  import opened Generator
  import opened Round

  /** As written: answer correctly, toggle, answer correctly again. The same
      index is scored twice and two advances are pending, which breaks the
      controller's invariant. */
  lemma ToggleReopensAnsweredQuestion(s: State, batch: seq<Draws>)
    requires Inv(s) && s.screen == GameScreen && !s.answered && ValidBatch(batch)
    ensures var s1 := CheckAnswer(s, s.questions[s.currentQuestion].correct);
            var s2 := ToggleLanguageAsWritten(s1, batch);
            && s2.screen == GameScreen && !s2.answered
            && var s3 := CheckAnswer(s2, s2.questions[s2.currentQuestion].correct);
            && s3.currentQuestion == s.currentQuestion
            && s3.score == s.score + 2
            && s3.pendingAdvances == 2
            && !Inv(s3)
  {
    assert WellFormed(s.questions[s.currentQuestion]);
  }

  /** Corrected: the same three inputs score the question once, leave one
      advance pending and keep the invariant. */
  lemma ToggleKeepsAnsweredQuestion(s: State, batch: seq<Draws>)
    requires Inv(s) && s.screen == GameScreen && !s.answered && ValidBatch(batch)
    ensures var s1 := CheckAnswer(s, s.questions[s.currentQuestion].correct);
            var s2 := ToggleLanguage(s1, batch);
            && s2.screen == GameScreen && s2.answered
            && var s3 := CheckAnswer(s2, s2.questions[s2.currentQuestion].correct);
            && s3 == s2
            && s3.score == s.score + 1
            && s3.pendingAdvances == 1
            && Inv(s3)
  {
    var a := Answer(s.questions[s.currentQuestion].correct);
    assert WellFormed(s.questions[s.currentQuestion]);
    StepPreservesInv(s, a);
    StepPreservesInv(Step(s, a), Toggle(batch));
  }

  /** As written, `k` rounds of "answer correctly, toggle" on one question. */
  function AnswerAndToggle(s: State, batch: seq<Draws>, k: nat): (t: State)
    requires s.screen == GameScreen && !s.answered && ValidBatch(batch)
    requires s.currentQuestion < TotalQuestions && |s.questions| == TotalQuestions
    requires forall i :: 0 <= i < |s.questions| ==> WellFormed(s.questions[i])
    ensures t.score == s.score + k
    ensures t.pendingAdvances == s.pendingAdvances + k
    ensures t.currentQuestion == s.currentQuestion
    ensures t.screen == GameScreen && !t.answered
    ensures |t.questions| == TotalQuestions
    decreases k
  {
    if k == 0 then s
    else
      var s1 := CheckAnswer(s, s.questions[s.currentQuestion].correct);
      AnswerAndToggle(ToggleLanguageAsWritten(s1, batch), batch, k - 1)
  }

  /** `k` scheduled advances firing one after another. */
  function Timeouts(s: State, k: nat): (t: State)
    requires s.pendingAdvances >= k
    ensures t.currentQuestion == s.currentQuestion + k
    ensures t.score == s.score
    ensures t.pendingAdvances == s.pendingAdvances - k
    ensures k > 0 && s.currentQuestion + k >= TotalQuestions ==> t.screen == EndScreen
    decreases k
  {
    if k == 0 then s else Timeouts(Advance(s), k - 1)
  }

  /** As written, a learner who answers the first question and toggles the
      language eleven times, then waits, ends the round with 11 points out of
      10 and the "excellent" message instead of "perfect". */
  lemma ElevenPointRound(batch: seq<Draws>)
    requires ValidBatch(batch)
    ensures var s0 := StartGame(Initial(), batch);
            var s1 := AnswerAndToggle(s0, batch, 11);
            var s2 := Timeouts(s1, TotalQuestions);
            && s2.screen == EndScreen
            && s2.score == TotalQuestions + 1
            && EndTier(s2.score) == Excellent
            && !Inv(s2)
  {
  }

  /** As written, three clicks on the last question are enough: with nine
      points at index 9, answer correctly, toggle, answer correctly again;
      the first timeout ends the round with 11 points and the "excellent"
      message. */
  lemma LastQuestionElevenPoints(s: State, batch: seq<Draws>)
    requires Inv(s) && s.screen == GameScreen && !s.answered && ValidBatch(batch)
    requires s.currentQuestion == TotalQuestions - 1 && s.score == TotalQuestions - 1
    ensures var s1 := CheckAnswer(s, s.questions[s.currentQuestion].correct);
            var s2 := ToggleLanguageAsWritten(s1, batch);
            var s3 := CheckAnswer(s2, s2.questions[s2.currentQuestion].correct);
            var s4 := Advance(s3);
            && s4.screen == EndScreen
            && s4.score == TotalQuestions + 1
            && EndTier(s4.score) == Excellent
            && !Inv(s4)
  {
    assert WellFormed(s.questions[s.currentQuestion]);
  }
}
