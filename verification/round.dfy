/**
 The round controller of the coordinate quiz: the module-level state of
 script.js (`currentQuestion`, `score`, `answered`, `questions`, `isSpanish`)
 as one immutable record, and each handler's effect on that state as a
 function. The page is reduced to which screen is active; the 2.5 second
 `setTimeout` is reduced to a count of scheduled advances, each of which runs
 the timeout body (`Advance`) at some later step.
 */
module Round {
  import opened Generator

  /** `totalQuestions`. */
  const TotalQuestions: nat := 10

  datatype Screen = StartScreen | GameScreen | EndScreen

  datatype State = State(
    currentQuestion: nat,
    score: nat,
    answered: bool,
    questions: seq<Question>,
    language: Language,
    screen: Screen,
    pendingAdvances: nat)   // timeout callbacks scheduled and not yet run

  /** The state when the page has loaded. */
  function Initial(): (s: State)
    ensures s.screen == StartScreen && s.score == 0 && s.pendingAdvances == 0
  {
    State(0, 0, false, [], English, StartScreen, 0)
  }

  /** A batch of draws for `generateQuestions`: one valid draw per question. */
  predicate ValidBatch(batch: seq<Draws>) {
    && |batch| == TotalQuestions
    && forall i :: 0 <= i < |batch| ==> ValidDraws(batch[i])
  }

  /** `generateQuestions`: one question per draw, in order, all in `lang`. */
  function GenerateQuestions(lang: Language, batch: seq<Draws>): (qs: seq<Question>)
    requires forall i :: 0 <= i < |batch| ==> ValidDraws(batch[i])
    ensures |qs| == |batch|
    ensures forall i :: 0 <= i < |qs| ==>
              && WellFormed(qs[i])
              && qs[i].lang == lang
  {
    seq(|batch|, i requires 0 <= i < |batch| => GenerateQuestion(lang, batch[i]))
  }

  /** `displayQuestion`: past the last question it runs `endGame`, which
      switches to the end screen; otherwise it re-opens the current question. */
  function DisplayQuestion(s: State): (t: State)
    ensures t.currentQuestion == s.currentQuestion && t.score == s.score
    ensures t.questions == s.questions && t.language == s.language
    ensures t.pendingAdvances == s.pendingAdvances
    ensures s.currentQuestion >= TotalQuestions ==> t.screen == EndScreen && t.answered == s.answered
    ensures s.currentQuestion < TotalQuestions ==> t.screen == s.screen && !t.answered
  {
    if s.currentQuestion >= TotalQuestions then s.(screen := EndScreen)
    else s.(answered := false)
  }

  /** `startGame`: index and score reset, a fresh batch, the game screen, the
      first question shown. A pending advance is not cancelled. */
  function StartGame(s: State, batch: seq<Draws>): (t: State)
    requires ValidBatch(batch)
    ensures t.currentQuestion == 0 && t.score == 0 && !t.answered
    ensures |t.questions| == TotalQuestions
    ensures forall i :: 0 <= i < |t.questions| ==> WellFormed(t.questions[i]) && t.questions[i].lang == s.language
    ensures t.screen == GameScreen
    ensures t.language == s.language && t.pendingAdvances == s.pendingAdvances
  {
    DisplayQuestion(s.(currentQuestion := 0, score := 0,
                       questions := GenerateQuestions(s.language, batch),
                       screen := GameScreen))
  }

  /** The correct answer of the current question, when there is one. */
  predicate IsCorrect(s: State, selected: Answer) {
    s.currentQuestion < |s.questions| && selected == s.questions[s.currentQuestion].correct
  }

  /** `checkAnswer` (its effect on the state): ignored once the question is
      answered; otherwise marks it answered, scores a correct choice and
      schedules an advance. With no current question the source fails on
      `q.correctAnswer` right after setting `answered`. */
  function CheckAnswer(s: State, selected: Answer): (t: State)
    ensures s.answered ==> t == s
    ensures !s.answered ==> t.answered
    ensures t.score == if !s.answered && IsCorrect(s, selected) then s.score + 1 else s.score
    ensures t.currentQuestion == s.currentQuestion && t.questions == s.questions
    ensures t.language == s.language && t.screen == s.screen
    ensures t.pendingAdvances == if !s.answered && s.currentQuestion < |s.questions|
                                 then s.pendingAdvances + 1 else s.pendingAdvances
  {
    if s.answered then s
    else if s.currentQuestion >= |s.questions| then s.(answered := true)
    else
      var t := s.(answered := true, pendingAdvances := s.pendingAdvances + 1);
      if IsCorrect(s, selected) then t.(score := s.score + 1) else t
  }

  /** The timeout body: the next index, then `displayQuestion`. */
  function Advance(s: State): (t: State)
    requires s.pendingAdvances > 0
    ensures t.currentQuestion == s.currentQuestion + 1
    ensures t.pendingAdvances == s.pendingAdvances - 1
    ensures t.score == s.score && t.questions == s.questions && t.language == s.language
    ensures t.currentQuestion >= TotalQuestions ==> t.screen == EndScreen
    ensures t.currentQuestion < TotalQuestions ==> t.screen == s.screen && !t.answered
  {
    DisplayQuestion(s.(currentQuestion := s.currentQuestion + 1,
                       pendingAdvances := s.pendingAdvances - 1))
  }

  /** `toggleLanguage` as written: the language flips and, while the game
      screen is active, a fresh batch is generated and `displayQuestion` runs,
      which clears `answered` even if an advance is still pending. */
  function ToggleLanguageAsWritten(s: State, batch: seq<Draws>): (t: State)
    requires ValidBatch(batch)
    ensures t.language == Flip(s.language)
    ensures t.score == s.score && t.currentQuestion == s.currentQuestion
    ensures t.pendingAdvances == s.pendingAdvances
    ensures s.screen != GameScreen ==> t == s.(language := Flip(s.language))
    ensures s.screen == GameScreen ==>
              && |t.questions| == TotalQuestions
              && forall i :: 0 <= i < |t.questions| ==> WellFormed(t.questions[i]) && t.questions[i].lang == t.language
    ensures s.screen == GameScreen && s.currentQuestion < TotalQuestions ==> !t.answered && t.screen == GameScreen
  {
    var flipped := s.(language := Flip(s.language));
    if s.screen == GameScreen then
      DisplayQuestion(flipped.(questions := GenerateQuestions(flipped.language, batch)))
    else flipped
  }

  /** `toggleLanguage` corrected: the same, except that re-rendering keeps
      `answered`, so a question answered before the toggle stays answered. */
  function ToggleLanguage(s: State, batch: seq<Draws>): (t: State)
    requires ValidBatch(batch)
    ensures t.language == Flip(s.language)
    ensures t.score == s.score && t.currentQuestion == s.currentQuestion
    ensures t.answered == s.answered && t.pendingAdvances == s.pendingAdvances
    ensures s.screen != GameScreen ==> t == s.(language := Flip(s.language))
    ensures s.screen == GameScreen ==>
              && |t.questions| == TotalQuestions
              && forall i :: 0 <= i < |t.questions| ==> WellFormed(t.questions[i]) && t.questions[i].lang == t.language
    ensures s.screen == GameScreen && s.currentQuestion < TotalQuestions ==> t.screen == GameScreen
  {
    ToggleLanguageAsWritten(s, batch).(answered := s.answered)
  }

  /** The end-of-round message tiers. */
  datatype Tier = Perfect | Excellent | Good | KeepTrying

  /** `endGame`'s message choice. */
  function EndTier(score: nat): (t: Tier)
    ensures t == Perfect <==> score == 10
    ensures t == Excellent <==> score >= 8 && score != 10
    ensures t == Good <==> 6 <= score <= 7
    ensures t == KeepTrying <==> score <= 5
  {
    if score == 10 then Perfect
    else if score >= 8 then Excellent
    else if score >= 6 then Good
    else KeepTrying
  }

  /** The rank of a tier, best last. */
  function TierRank(t: Tier): nat {
    match t
    case KeepTrying => 0
    case Good => 1
    case Excellent => 2
    case Perfect => 3
  }

  /** `endGame`'s confetti decision: exactly the tiers above "keep trying". */
  function Confetti(score: nat): (c: bool)
    ensures c <==> score >= 6
    ensures c <==> EndTier(score) != KeepTrying
  {
    score >= 6
  }

  /** Within a round's possible scores a better score never gets a worse tier. */
  lemma TierMonotone(a: nat, b: nat)
    requires a <= b <= TotalQuestions
    ensures TierRank(EndTier(a)) <= TierRank(EndTier(b))
  {
  }

  /** What the learner and the timer can do. `Start` is the start or restart
      button, `Answer` a choice button, `Toggle` the language button and
      `Timeout` a scheduled advance firing. */
  datatype Event =
    | Start(batch: seq<Draws>)
    | Answer(choice: Answer)
    | Toggle(batch: seq<Draws>)
    | Timeout

  /** When an event can happen: the start and restart buttons live on the
      start and end screens, the choice buttons are the current question's
      answers on the game screen, and a timeout needs a scheduled advance. */
  predicate Enabled(s: State, e: Event) {
    match e
    case Start(batch) => s.screen != GameScreen && ValidBatch(batch)
    case Answer(c) =>
      && s.screen == GameScreen
      && s.currentQuestion < |s.questions|
      && c in s.questions[s.currentQuestion].answers
    case Toggle(batch) => ValidBatch(batch)
    case Timeout => s.pendingAdvances > 0
  }

  /** One step of the corrected controller. Only the language button changes
      the language; apart from a restart the score and the index never go
      back and move by at most one; only a correct answer scores, and an
      answer never moves the index. */
  function Step(s: State, e: Event): (t: State)
    requires Enabled(s, e)
    ensures t.language == if e.Toggle? then Flip(s.language) else s.language
    ensures e.Start? ==> t.score == 0 && t.currentQuestion == 0
    ensures !e.Start? ==> s.score <= t.score <= s.score + 1
    ensures !e.Start? ==> s.currentQuestion <= t.currentQuestion <= s.currentQuestion + 1
    ensures e.Answer? ==> t.currentQuestion == s.currentQuestion
    ensures !e.Start? && t.score > s.score ==> e.Answer? && IsCorrect(s, e.choice)
  {
    match e
    case Start(batch) => StartGame(s, batch)
    case Answer(c) => CheckAnswer(s, c)
    case Toggle(batch) => ToggleLanguage(s, batch)
    case Timeout => Advance(s)
  }

  /** A run of events; an event that cannot happen is ignored. */
  function Run(s: State, events: seq<Event>): State
    decreases |events|
  {
    if |events| == 0 then s
    else if Enabled(s, events[0]) then Run(Step(s, events[0]), events[1..])
    else Run(s, events[1..])
  }

  /** Events are handled one after another: a run of two sequences in a row
      is the run of their concatenation. */
  lemma {:induction false} RunConcat(s: State, a: seq<Event>, b: seq<Event>)
    ensures Run(s, a + b) == Run(Run(s, a), b)
    decreases |a|
  {
    if |a| == 0 {
      assert a + b == b;
    } else {
      assert (a + b)[0] == a[0];
      assert (a + b)[1..] == a[1..] + b;
      if Enabled(s, a[0]) {
        RunConcat(Step(s, a[0]), a[1..], b);
      } else {
        RunConcat(s, a[1..], b);
      }
    }
  }

  /** The controller's invariant: the score never runs ahead of the answered
      questions nor past the round length, the index stays within the round,
      at most one advance is pending and only for an answered question, and
      the questions on show are well formed and in the current language. */
  predicate Inv(s: State) {
    && s.score <= s.currentQuestion + (if s.answered then 1 else 0)
    && s.score <= TotalQuestions
    && s.currentQuestion <= TotalQuestions
    && (s.screen == StartScreen ==>
          s.currentQuestion == 0 && s.score == 0 && !s.answered && s.pendingAdvances == 0)
    && (s.screen == GameScreen ==>
          && s.currentQuestion < TotalQuestions
          && |s.questions| == TotalQuestions
          && s.pendingAdvances == (if s.answered then 1 else 0)
          && forall i :: 0 <= i < |s.questions| ==> WellFormed(s.questions[i]) && s.questions[i].lang == s.language)
    && (s.screen == EndScreen ==> s.currentQuestion == TotalQuestions && s.pendingAdvances == 0)
  }

  lemma InitialInv()
    ensures Inv(Initial())
  {
  }

  /** Every step of the corrected controller keeps the invariant. */
  lemma StepPreservesInv(s: State, e: Event)
    requires Inv(s) && Enabled(s, e)
    ensures Inv(Step(s, e))
  {
    match e
    case Start(batch) =>
    case Answer(c) =>
    case Toggle(batch) =>
    case Timeout =>
  }

  /** Every run from a state satisfying the invariant keeps it. */
  lemma {:induction false} RunPreservesInv(s: State, events: seq<Event>)
    requires Inv(s)
    ensures Inv(Run(s, events))
    decreases |events|
  {
    if |events| > 0 {
      if Enabled(s, events[0]) {
        StepPreservesInv(s, events[0]);
        RunPreservesInv(Step(s, events[0]), events[1..]);
      } else {
        RunPreservesInv(s, events[1..]);
      }
    }
  }

  /** Whatever the learner does with the corrected controller, the score
      stays within the round and the end-of-round message is "perfect" only
      for a full score. */
  lemma ScoreWithinRound(events: seq<Event>)
    ensures Run(Initial(), events).score <= TotalQuestions
    ensures EndTier(Run(Initial(), events).score) == Perfect ==> Run(Initial(), events).score == TotalQuestions
    ensures Run(Initial(), events).currentQuestion <= TotalQuestions
    ensures Run(Initial(), events).pendingAdvances <= 1
  {
    InitialInv();
    RunPreservesInv(Initial(), events);
  }

  /** On the game screen the correct answer's button is always on show, so
      the learner can always answer correctly. */
  lemma CorrectChoiceEnabled(s: State)
    requires Inv(s) && s.screen == GameScreen
    ensures s.currentQuestion < |s.questions|
    ensures Enabled(s, Answer(s.questions[s.currentQuestion].correct))
  {
    assert WellFormed(s.questions[s.currentQuestion]);
  }

  /** A second answer to the same question changes nothing. */
  lemma AnswerScoresOnce(s: State, first: Answer, second: Answer)
    ensures CheckAnswer(CheckAnswer(s, first), second) == CheckAnswer(s, first)
    ensures CheckAnswer(CheckAnswer(s, first), second).score <= s.score + 1
  {
  }

  /** Answering every remaining question correctly, each followed by its
      timeout. */
  function PerfectPlay(qs: seq<Question>, from: nat): seq<Event>
    decreases |qs| - from
  {
    if from >= |qs| then [] else [Answer(qs[from].correct), Timeout] + PerfectPlay(qs, from + 1)
  }

  /** A run that starts with an enabled event takes its step first. */
  lemma RunStep(s: State, e: Event, rest: seq<Event>)
    requires Enabled(s, e)
    ensures Run(s, [e] + rest) == Run(Step(s, e), rest)
  {
    assert ([e] + rest)[0] == e;
    assert ([e] + rest)[1..] == rest;
  }

  /** Every question of the batch offers its correct answer as a choice. */
  predicate CorrectOffered(qs: seq<Question>) {
    forall i :: 0 <= i < |qs| ==> qs[i].correct in qs[i].answers
  }

  /** A question of a full batch is on show and not yet answered. */
  predicate OpenQuestion(s: State) {
    && s.screen == GameScreen
    && !s.answered
    && s.currentQuestion < TotalQuestions
    && |s.questions| == TotalQuestions
    && CorrectOffered(s.questions)
  }

  /** A correct answer to an unanswered question followed by its timeout. */
  function AnswerCorrectly(s: State): State
    requires !s.answered && s.currentQuestion < |s.questions|
  {
    Advance(CheckAnswer(s, s.questions[s.currentQuestion].correct))
  }

  /** A correct answer and its timeout: one more point and the next question. */
  lemma AnswerCorrectlyScores(s: State)
    requires OpenQuestion(s)
    ensures AnswerCorrectly(s).score == s.score + 1
    ensures AnswerCorrectly(s).currentQuestion == s.currentQuestion + 1
    ensures AnswerCorrectly(s).questions == s.questions
    ensures AnswerCorrectly(s).currentQuestion < TotalQuestions ==> OpenQuestion(AnswerCorrectly(s))
    ensures AnswerCorrectly(s).currentQuestion == TotalQuestions ==> AnswerCorrectly(s).screen == EndScreen
  {
  }

  /** A run that starts by answering an open question and letting its
      timeout fire takes those two steps first. */
  lemma RunAnswerTimeout(s: State, c: Answer, rest: seq<Event>)
    requires s.screen == GameScreen && !s.answered
    requires s.currentQuestion < |s.questions| && c in s.questions[s.currentQuestion].answers
    ensures Run(s, [Answer(c), Timeout] + rest) == Run(Advance(CheckAnswer(s, c)), rest)
  {
    assert [Answer(c), Timeout] + rest == [Answer(c)] + ([Timeout] + rest);
    RunStep(s, Answer(c), [Timeout] + rest);
    RunStep(CheckAnswer(s, c), Timeout, rest);
  }

  /** Perfect play takes its first two steps as `AnswerCorrectly`. */
  lemma PerfectPlayUnfold(s: State)
    requires OpenQuestion(s)
    ensures Run(s, PerfectPlay(s.questions, s.currentQuestion))
            == Run(AnswerCorrectly(s), PerfectPlay(s.questions, s.currentQuestion + 1))
  {
    var q := s.questions[s.currentQuestion];
    RunAnswerTimeout(s, q.correct, PerfectPlay(s.questions, s.currentQuestion + 1));
  }

  /** From an unanswered question with a full score so far, perfect play ends
      the round on the end screen with the full score. */
  lemma {:induction false} PerfectPlayEndsPerfect(s: State)
    requires OpenQuestion(s) && s.score == s.currentQuestion
    ensures Run(s, PerfectPlay(s.questions, s.currentQuestion)).screen == EndScreen
    ensures Run(s, PerfectPlay(s.questions, s.currentQuestion)).score == TotalQuestions
    decreases TotalQuestions - s.currentQuestion
  {
    PerfectPlayUnfold(s);
    AnswerCorrectlyScores(s);
    var s2 := AnswerCorrectly(s);
    if s2.currentQuestion < TotalQuestions {
      PerfectPlayEndsPerfect(s2);
    } else {
      assert PerfectPlay(s.questions, s.currentQuestion + 1) == [];
    }
  }

  /** The full scenario: start a round and answer all ten questions correctly;
      the round ends with score 10, the "perfect" message and confetti. */
  lemma PerfectRound(batch: seq<Draws>)
    requires ValidBatch(batch)
    ensures var s := StartGame(Initial(), batch);
            var t := Run(s, PerfectPlay(s.questions, 0));
            t.screen == EndScreen && t.score == TotalQuestions
            && EndTier(t.score) == Perfect && Confetti(t.score)
  {
    var s := StartGame(Initial(), batch);
    forall i | 0 <= i < |s.questions|
      ensures s.questions[i].correct in s.questions[i].answers
    {
      assert WellFormed(s.questions[i]);
    }
    PerfectPlayEndsPerfect(s);
  }
}
