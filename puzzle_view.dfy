/** What the puzzle-learning screen shows for a state, and therefore which actions a
    learner can take: answering the current question, continuing to the next level,
    submitting the scenario answer. The state updates of `Puzzle` do not check that a
    level is complete; that gating lives here. The lemmas show that every action the
    screen offers keeps `PuzzleInv`, that progression only moves forward, and that the
    scenario is evaluated once. */
module PuzzleView {
  import opened Types
  import opened Text
  import opened Puzzle
  import opened GeminiService

  // ---------------------------------------------------------------- screens

  /** The screen of the puzzle-learning module. */
  datatype Screen =
    | NoPuzzle                                                    // no puzzle state: nothing is rendered
    | AllComplete                                                 // "Puzzle Learning Complete!"
    | Level1Complete(score: nat, total: nat)                      // score line and "Continue to Level 2"
    | Level2Review(flashcards: seq<Flashcard>)                    // the cards and "Continue to Level 3"
    | Level3Complete(level3: Level3)                              // answer, feedback and "Finish"
    | QuizQuestion(index: nat, question: Level1Question, selected: Option<string>)
    | ScenarioForm(level3: Level3)                                // scenario with the answer box
    | Empty

  /** The screen selection: finishing takes precedence, then a completed level with its
      continue button, then the quiz question or the scenario form. The quiz always shows the
      current question with its recorded answer, and the Level-1 score line shows the score
      against the number of questions. */
  function ScreenOf(ps: Option<PuzzleState>): (screen: Screen)
    ensures screen == NoPuzzle <==> ps.None?
    ensures ps.Some? && ps.value.isFinished ==> screen == AllComplete
    ensures screen.QuizQuestion? ==>
      && ps.Some? && ps.value.level1.Some?
      && ps.value.currentLevel == 1 && !ps.value.isFinished
      && screen.index == ps.value.level1.value.currentQuestionIndex < |ps.value.level1.value.questions|
      && screen.question == ps.value.level1.value.questions[screen.index]
      && screen.selected == (if screen.index < |ps.value.level1.value.userAnswers|
                             then ps.value.level1.value.userAnswers[screen.index] else None)
    ensures screen.Level1Complete? ==>
      && ps.Some? && ps.value.level1.Some?
      && ps.value.currentLevel == 1 && Level1Finished(ps.value.level1.value)
      && screen.score == ps.value.level1.value.score && screen.total == |ps.value.level1.value.questions|
    ensures screen.ScenarioForm? ==>
      && ps.Some? && ps.value.currentLevel == 3 && !ps.value.isFinished
      && ps.value.level3 == Some(screen.level3) && !screen.level3.isEvaluated
  {
    if ps.None? then NoPuzzle
    else
      var s := ps.value;
      if s.isFinished then AllComplete
      else if s.level1.Some? && Level1Finished(s.level1.value) && s.currentLevel == 1 then
        Level1Complete(s.level1.value.score, |s.level1.value.questions|)
      else if s.currentLevel == 2 && s.level2.Some? then Level2Review(s.level2.value.flashcards)
      else if s.currentLevel == 3 && s.level3.Some? && s.level3.value.isEvaluated then Level3Complete(s.level3.value)
      else if s.currentLevel == 1 && s.level1.Some? then
        var l := s.level1.value;
        // a missing answer slot reads as `undefined`, which the quiz treats like null
        QuizQuestion(l.currentQuestionIndex, l.questions[l.currentQuestionIndex],
                     if l.currentQuestionIndex < |l.userAnswers| then l.userAnswers[l.currentQuestionIndex] else None)
      else if s.currentLevel == 3 && s.level3.Some? then ScenarioForm(s.level3.value)
      else Empty
  }

  /** A "continue" button (to Level 2, to Level 3, or Finish) is on screen exactly when the
      puzzle is not finished and the current level is complete. */
  predicate ContinueOffered(ps: Option<PuzzleState>)
    ensures ContinueOffered(ps) <==>
      ps.Some? && !ps.value.isFinished &&
      ((ps.value.currentLevel == 1 && ps.value.level1.Some? && Level1Finished(ps.value.level1.value))
       || (ps.value.currentLevel == 2 && ps.value.level2.Some?)
       || (ps.value.currentLevel == 3 && ps.value.level3.Some? && ps.value.level3.value.isEvaluated))
  {
    var screen := ScreenOf(ps);
    screen.Level1Complete? || screen.Level2Review? || screen.Level3Complete?
  }

  /** The JavaScript truthiness of a recorded answer: null and "" are both false. */
  predicate Truthy(a: Option<string>)
  {
    a.Some? && a.value != ""
  }

  /** An option button of the current question can be clicked, as the quiz renders it:
      buttons are disabled once the recorded answer is truthy. */
  predicate AnswerOfferedAsWritten(ps: Option<PuzzleState>, qIndex: nat, answer: string)
    ensures AnswerOfferedAsWritten(ps, qIndex, answer) <==>
      ps.Some? && !ps.value.isFinished && ps.value.currentLevel == 1 && ps.value.level1.Some?
      && var l := ps.value.level1.value;
      && qIndex == l.currentQuestionIndex < |l.questions| && answer in l.questions[qIndex].options
      && (qIndex < |l.userAnswers| ==> !Truthy(l.userAnswers[qIndex]))
  {
    match ScreenOf(ps)
    case QuizQuestion(i, q, selected) => qIndex == i && answer in q.options && !Truthy(selected)
    case _ => false
  }

  /** An option button of the current question can be clicked: the corrected guard, which
      disables the buttons once any answer, the empty string included, is recorded. It is
      stricter than the guard as written, and differs from it only on a recorded "". */
  predicate AnswerOffered(ps: Option<PuzzleState>, qIndex: nat, answer: string)
    ensures AnswerOffered(ps, qIndex, answer) ==> AnswerOfferedAsWritten(ps, qIndex, answer)
    ensures AnswerOfferedAsWritten(ps, qIndex, answer) && !AnswerOffered(ps, qIndex, answer) ==>
      var l := ps.value.level1.value; l.userAnswers[qIndex] == Some("")
  {
    match ScreenOf(ps)
    case QuizQuestion(i, q, selected) => qIndex == i && answer in q.options && selected.None?
    case _ => false
  }

  /** The scenario form is shown and its submit button is enabled for this answer: Level 3
      is current, its scenario is not yet evaluated, and the answer is not blank. */
  predicate EvaluateOffered(ps: Option<PuzzleState>, answer: string)
    ensures EvaluateOffered(ps, answer) <==>
      ps.Some? && !ps.value.isFinished && ps.value.currentLevel == 3 && ps.value.level3.Some?
      && !ps.value.level3.value.isEvaluated && Trim(answer) != ""
  {
    TrimEmptyIffBlank(answer);
    ScreenOf(ps).ScenarioForm? && !IsBlank(answer)
  }

  /** An answer to the current question is recorded and its delayed index step has not run yet. */
  predicate RevealPending(ps: Option<PuzzleState>)
  {
    ps.Some? && ps.value.level1.Some?
    && ps.value.level1.value.currentQuestionIndex < |ps.value.level1.value.userAnswers|
    && ps.value.level1.value.userAnswers[ps.value.level1.value.currentQuestionIndex].Some?
  }

  /** A freshly created puzzle has no reveal pending. */
  lemma InitialNotPending(questions: seq<Level1Question>)
    ensures !RevealPending(Some(InitialPuzzle(questions)))
  {
  }

  // ------------------------------------------------------ option colouring

  /** How a quiz option button is coloured. */
  datatype OptionStyle = Plain | Green | Red | Dimmed

  /** Before an answer every option is plain; afterwards the correct option is green, a wrong
      selected option red, and every other option dimmed. */
  function OptionClass(userAnswer: Option<string>, option: string, correct: string): (style: OptionStyle)
    ensures !Truthy(userAnswer) ==> style == Plain
    ensures Truthy(userAnswer) ==> (style == Green <==> option == correct)
    ensures Truthy(userAnswer) ==> (style == Red <==> option == userAnswer.value && option != correct)
    ensures Truthy(userAnswer) ==> (style == Dimmed <==> option != correct && option != userAnswer.value)
  {
    if !Truthy(userAnswer) then Plain
    else
      var isSelected := userAnswer.value == option;
      var isCorrect := correct == option;
      if isSelected && isCorrect then Green
      else if isSelected && !isCorrect then Red
      else if isCorrect then Green
      else Dimmed
  }

  // ------------------------------------------------------- gated transitions

  /** Answering the question on screen keeps the invariant, records exactly that answer,
      raises the score by one exactly when it is correct, and leaves a reveal pending
      during which no option can be clicked. */
  lemma AnswerStep(s: PuzzleState, qIndex: nat, answer: string)
    requires PuzzleInv(s) && AnswerOffered(Some(s), qIndex, answer)
    ensures AnswerQuestion(Some(s), qIndex, answer).Some?
    ensures var r := AnswerQuestion(Some(s), qIndex, answer).value;
      && PuzzleInv(r)
      && r.currentLevel == s.currentLevel && r.level2 == s.level2 && r.level3 == s.level3
      && r.level1.value.currentQuestionIndex == s.level1.value.currentQuestionIndex
      && r.level1.value.score == s.level1.value.score + (if answer == s.level1.value.questions[qIndex].answer then 1 else 0)
      && RevealPending(Some(r))
      && forall q: nat, a :: !AnswerOffered(Some(r), q, a)
  {
    var l := s.level1.value;
    var r := AnswerQuestion(Some(s), qIndex, answer).value;
    var l' := r.level1.value;
    assert l'.userAnswers == l.userAnswers[qIndex := Some(answer)];
    CorrectBelowRecord(l.questions, l.userAnswers, |l.questions|, qIndex, answer);
    assert ScreenOf(Some(r)).QuizQuestion?;
  }

  /** The delayed step keeps the invariant and leaves no reveal pending. */
  lemma RevealStep(s: PuzzleState)
    requires PuzzleInv(s) && RevealPending(Some(s))
    ensures RevealNextQuestion(Some(s)).Some?
    ensures var r := RevealNextQuestion(Some(s)).value;
      && PuzzleInv(r) && !RevealPending(Some(r))
      && r.level1.value.currentQuestionIndex == s.level1.value.currentQuestionIndex + 1
      && r.level1.value.score == s.level1.value.score
  {
    var r := RevealNextQuestion(Some(s)).value;
    assert r.level1.value.userAnswers == s.level1.value.userAnswers;
  }

  /** Continuing from the screen keeps the invariant: Level 1 to 2 with the flashcards, 2 to 3
      with a fresh unevaluated scenario, and 3 to finished; the level never goes back and the
      Level-1 record is kept. */
  lemma ContinueStep(s: PuzzleState, flashcards: seq<Flashcard>, scenario: Scenario)
    requires PuzzleInv(s) && ContinueOffered(Some(s))
    ensures AdvanceLevel(Some(s), flashcards, scenario).Some?
    ensures var r := AdvanceLevel(Some(s), flashcards, scenario).value;
      && PuzzleInv(r) && !RevealPending(Some(r))
      && r.level1 == s.level1 && r.currentLevel >= s.currentLevel
      && (s.currentLevel == 1 ==> r.currentLevel == 2 && r.level2 == Some(Level2(flashcards)) && !r.isFinished)
      && (s.currentLevel == 2 ==>
            r.currentLevel == 3 && !r.isFinished && r.level3 == Some(Level3(scenario.scenario, scenario.question, "", "", false)))
      && (s.currentLevel == 3 ==> r == s.(isFinished := true))
  {
  }

  /** Submitting a non-blank scenario answer keeps the invariant, stores answer and feedback,
      and is one-shot: afterwards the form is gone and only "Finish" is offered. */
  lemma EvaluateStep(s: PuzzleState, answer: string, feedback: string)
    requires PuzzleInv(s) && EvaluateOffered(Some(s), answer)
    ensures EvaluateScenario(Some(s), answer, feedback).Some?
    ensures var r := EvaluateScenario(Some(s), answer, feedback).value;
      && PuzzleInv(r) && !RevealPending(Some(r))
      && r.currentLevel == 3 && r.level1 == s.level1 && r.level2 == s.level2
      && r.level3.value.scenario == s.level3.value.scenario && r.level3.value.question == s.level3.value.question
      && r.level3.value.userAnswer == answer && r.level3.value.feedback == feedback
      && (forall a :: !EvaluateOffered(Some(r), a))
      && ContinueOffered(Some(r))
  {
  }

  /** An unfinished Level 1 offers no way to continue: the flashcards cannot be requested early. */
  lemma NoContinueBeforeLevel1Done(s: PuzzleState)
    requires PuzzleInv(s) && s.currentLevel == 1
    requires s.level1.value.currentQuestionIndex < |s.level1.value.questions|
    ensures !ContinueOffered(Some(s))
    ensures !s.isFinished
  {
  }

  /** Once finished, the completion screen is final: no answer, continue or evaluation is offered. */
  lemma FinishedOffersNothing(s: PuzzleState)
    requires s.isFinished
    ensures ScreenOf(Some(s)) == AllComplete
    ensures !ContinueOffered(Some(s))
    ensures forall q: nat, a :: !AnswerOffered(Some(s), q, a)
    ensures forall a :: !EvaluateOffered(Some(s), a)
  {
  }

  /** Level 1 is done exactly when every question has an answer and no reveal is pending. */
  lemma Level1DoneIffAllAnswered(s: PuzzleState)
    requires PuzzleInv(s)
    ensures var l := s.level1.value;
      Level1Finished(l) <==> (forall i :: 0 <= i < |l.questions| ==> l.userAnswers[i].Some?) && !RevealPending(Some(s))
  {
    var l := s.level1.value;
    if !Level1Finished(l) && (forall i :: 0 <= i < |l.questions| ==> l.userAnswers[i].Some?) {
      assert l.userAnswers[l.currentQuestionIndex].Some?;
    }
  }

  /** When question generation failed, the placeholder question has no options, so no answer
      can be given and Level 1 can never be completed from the screen: the puzzle is stuck. */
  lemma FallbackQuizCannotProgress()
    ensures var s := Some(InitialPuzzle(GenerateLevel1Questions(Err)));
      && (forall q: nat, a :: !AnswerOffered(s, q, a))
      && !ContinueOffered(s) && !RevealPending(s)
      && (forall a :: !EvaluateOffered(s, a))
  {
    var s := Some(InitialPuzzle(GenerateLevel1Questions(Err)));
    assert ScreenOf(s).QuizQuestion? && ScreenOf(s).question.options == [];
  }

  // ----------------------------------------------------------------- finding

  /** The quiz as written treats an answer equal to "" as no answer: after choosing an empty
      option the same option can be chosen again, the score counts it twice, and the score
      line reads "2 / 1". */
  lemma EmptyOptionScoredTwice()
    ensures var q := Level1Question("Pick the blank option", [""], "");
      var s0 := Some(InitialPuzzle([q]));
      var s1 := AnswerQuestion(s0, 0, "");
      var s2 := AnswerQuestion(s1, 0, "");
      && AnswerOfferedAsWritten(s0, 0, "")
      && AnswerOfferedAsWritten(s1, 0, "")
      && s2.Some? && s2.value.level1.value.score == 2
      && s2.value.level1.value.score != CorrectCount(s2.value.level1.value)
      && ScreenOf(RevealNextQuestion(RevealNextQuestion(s2))) == Level1Complete(2, 1)
  {
    var q := Level1Question("Pick the blank option", [""], "");
    var s2 := AnswerQuestion(AnswerQuestion(Some(InitialPuzzle([q])), 0, ""), 0, "");
    assert s2.value.level1.value.userAnswers == [Some("")];
  }

  /** With the corrected guard a recorded empty answer disables the buttons, so the
      score keeps counting each question at most once. */
  lemma EmptyOptionAnsweredOnce()
    ensures var q := Level1Question("Pick the blank option", [""], "");
      var s0 := Some(InitialPuzzle([q]));
      var s1 := AnswerQuestion(s0, 0, "");
      && AnswerOffered(s0, 0, "")
      && (forall i: nat, a :: !AnswerOffered(s1, i, a))
      && s1.value.level1.value.score == CorrectCount(s1.value.level1.value) == 1
  {
    var q := Level1Question("Pick the blank option", [""], "");
    var s1 := AnswerQuestion(Some(InitialPuzzle([q])), 0, "");
    assert s1.value.level1.value.userAnswers == [Some("")];
  }
}
