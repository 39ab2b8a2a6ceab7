/** The puzzle-learning progression engine: the state updates the application
    applies to a `PuzzleState` (each a fresh copy of the previous state), the
    count of correctly answered questions, and the invariant every state reached
    through the user interface satisfies. */
module Puzzle {
  import opened Types
  import opened Text

  // ---------------------------------------------------------------- scoring

  /** Answer `a` is the correct option of question `q`. */
  predicate IsCorrect(q: Level1Question, a: Option<string>)
  {
    a == Some(q.answer)
  }

  /** The number of indices below `k` whose recorded answer is the correct one. */
  function CorrectBelow(questions: seq<Level1Question>, answers: seq<Option<string>>, k: nat): nat
    requires k <= |questions| && k <= |answers|
  {
    if k == 0 then 0
    else CorrectBelow(questions, answers, k - 1) + (if IsCorrect(questions[k - 1], answers[k - 1]) then 1 else 0)
  }

  /** The number of questions answered correctly. */
  function CorrectCount(l: Level1): nat
    requires |l.userAnswers| == |l.questions|
  {
    CorrectBelow(l.questions, l.userAnswers, |l.questions|)
  }

  lemma {:induction false} CorrectBelowBound(questions: seq<Level1Question>, answers: seq<Option<string>>, k: nat)
    requires k <= |questions| && k <= |answers|
    ensures CorrectBelow(questions, answers, k) <= k
  {
    if k > 0 {
      CorrectBelowBound(questions, answers, k - 1);
    }
  }

  /** No recorded answer means no correct answer. */
  lemma {:induction false} CorrectBelowUnanswered(questions: seq<Level1Question>, answers: seq<Option<string>>, k: nat)
    requires k <= |questions| && k <= |answers|
    requires forall i :: 0 <= i < k ==> answers[i].None?
    ensures CorrectBelow(questions, answers, k) == 0
  {
    if k > 0 {
      CorrectBelowUnanswered(questions, answers, k - 1);
    }
  }

  /** Every answer correct means every question counts. */
  lemma {:induction false} CorrectBelowAllCorrect(questions: seq<Level1Question>, answers: seq<Option<string>>, k: nat)
    requires k <= |questions| && k <= |answers|
    requires forall i :: 0 <= i < k ==> IsCorrect(questions[i], answers[i])
    ensures CorrectBelow(questions, answers, k) == k
  {
    if k > 0 {
      CorrectBelowAllCorrect(questions, answers, k - 1);
    }
  }

  /** Recording an answer at an unanswered index `j` changes the count by exactly that answer's correctness. */
  lemma {:induction false} CorrectBelowRecord(questions: seq<Level1Question>, answers: seq<Option<string>>, k: nat, j: nat, a: string)
    requires k <= |questions| && k <= |answers| && j < |answers|
    requires answers[j].None?
    ensures CorrectBelow(questions, answers[j := Some(a)], k)
            == CorrectBelow(questions, answers, k) + (if j < k && a == questions[j].answer then 1 else 0)
  {
    if k > 0 {
      CorrectBelowRecord(questions, answers, k - 1, j, a);
    }
  }

  // -------------------------------------------------------------- invariant

  /** Level 1 is complete: the question index has moved past the last question. */
  predicate Level1Finished(l: Level1)
  {
    l.currentQuestionIndex >= |l.questions|
  }

  /** Level-1 bookkeeping under the interface's protocol: one answer slot per question,
      questions answered in index order, and the score equal to the number of correct answers. */
  predicate Level1Inv(l: Level1)
  {
    && |l.userAnswers| == |l.questions|
    && l.currentQuestionIndex <= |l.questions|
    && (forall i :: 0 <= i < l.currentQuestionIndex ==> l.userAnswers[i].Some?)
    && (forall i :: l.currentQuestionIndex < i < |l.userAnswers| ==> l.userAnswers[i].None?)
    && l.score == CorrectCount(l)
  }

  /** The records present are exactly those of the levels reached so far; a later level is
      reached only once the earlier one is done; the puzzle finishes only after the scenario
      has been evaluated, and only non-blank answers are evaluated. */
  predicate PuzzleInv(s: PuzzleState)
  {
    && s.level1.Some? && Level1Inv(s.level1.value)
    && (s.level2.Some? <==> s.currentLevel >= 2)
    && (s.level3.Some? <==> s.currentLevel == 3)
    && (s.currentLevel >= 2 ==> Level1Finished(s.level1.value))
    && (s.level3.Some? && s.level3.value.isEvaluated ==> !IsBlank(s.level3.value.userAnswer))
    && (s.isFinished ==> s.currentLevel == 3 && s.level3.value.isEvaluated)
  }

  /** Under the invariant the score never exceeds the number of questions. */
  lemma ScoreBounded(s: PuzzleState)
    requires PuzzleInv(s)
    ensures s.level1.value.score <= |s.level1.value.questions|
  {
    var l := s.level1.value;
    CorrectBelowBound(l.questions, l.userAnswers, |l.questions|);
  }

  /** A learner who answers every question correctly scores full marks. */
  lemma AllCorrectFullScore(l: Level1)
    requires Level1Inv(l)
    requires forall i :: 0 <= i < |l.questions| ==> l.userAnswers[i] == Some(l.questions[i].answer)
    ensures l.score == |l.questions|
  {
    CorrectBelowAllCorrect(l.questions, l.userAnswers, |l.questions|);
  }

  // ------------------------------------------------------------ transitions

  /** The state created once the Level-1 questions arrive. */
  function InitialPuzzle(questions: seq<Level1Question>): (s: PuzzleState)
    ensures PuzzleInv(s)
    ensures s.currentLevel == 1 && !s.isFinished && s.level2.None? && s.level3.None?
    ensures s.level1.value.questions == questions && s.level1.value.difficulty == Easy
    ensures s.level1.value.currentQuestionIndex == 0 && s.level1.value.score == 0
    ensures |s.level1.value.userAnswers| == |questions|
    ensures forall i :: 0 <= i < |questions| ==> s.level1.value.userAnswers[i].None?
  {
    var answers := seq(|questions|, _ => None);
    CorrectBelowUnanswered(questions, answers, |questions|);
    PuzzleState(1, false, Some(Level1(questions, 0, answers, 0, Easy)), None, None)
  }

  /** Records `answer` for question `qIndex` and updates the score; the question index
      advances later, in RevealNextQuestion. With no state or no Level-1 record the result is null. */
  function AnswerQuestion(prev: Option<PuzzleState>, qIndex: nat, answer: string): (r: Option<PuzzleState>)
    requires prev.Some? && prev.value.level1.Some? ==>
               qIndex < |prev.value.level1.value.questions| && qIndex < |prev.value.level1.value.userAnswers|
    ensures r.None? <==> prev.None? || prev.value.level1.None?
    ensures r.Some? ==> r.value.level1.Some?
    ensures r.Some? ==>
      var l, l' := prev.value.level1.value, r.value.level1.value;
      && r.value == prev.value.(level1 := r.value.level1)
      && l'.questions == l.questions && l'.currentQuestionIndex == l.currentQuestionIndex && l'.difficulty == l.difficulty
      && |l'.userAnswers| == |l.userAnswers| && l'.userAnswers[qIndex] == Some(answer)
      && (forall i :: 0 <= i < |l.userAnswers| && i != qIndex ==> l'.userAnswers[i] == l.userAnswers[i])
      && l'.score == l.score + (if answer == l.questions[qIndex].answer then 1 else 0)
  {
    if prev.None? || prev.value.level1.None? then None
    else
      var l := prev.value.level1.value;
      var isCorrect := l.questions[qIndex].answer == answer;
      Some(prev.value.(level1 := Some(l.(userAnswers := l.userAnswers[qIndex := Some(answer)],
                                          score := l.score + if isCorrect then 1 else 0))))
  }

  /** The delayed step after an answer: the question index moves on by one, nothing else changes. */
  function RevealNextQuestion(prev: Option<PuzzleState>): (r: Option<PuzzleState>)
    ensures r.None? <==> prev.None? || prev.value.level1.None?
    ensures r.Some? ==> r.value.level1.Some?
    ensures r.Some? ==>
      var l, l' := prev.value.level1.value, r.value.level1.value;
      && r.value == prev.value.(level1 := r.value.level1)
      && l'.currentQuestionIndex == l.currentQuestionIndex + 1
      && l' == l.(currentQuestionIndex := l'.currentQuestionIndex)
  {
    if prev.None? || prev.value.level1.None? then None
    else
      var l := prev.value.level1.value;
      Some(prev.value.(level1 := Some(l.(currentQuestionIndex := l.currentQuestionIndex + 1))))
  }

  /** The "continue" action: from level 1 to 2 with the given flashcards, from 2 to 3 with the
      given scenario and an empty, unevaluated answer, and from 3 to finished. It does not itself
      check that the current level is complete. */
  function AdvanceLevel(prev: Option<PuzzleState>, flashcards: seq<Flashcard>, scenario: Scenario): (r: Option<PuzzleState>)
    ensures r.None? <==> prev.None?
    ensures r.Some? ==> r.value.currentLevel >= prev.value.currentLevel && r.value.level1 == prev.value.level1
    ensures r.Some? && prev.value.currentLevel == 1 ==>
      r.value == prev.value.(currentLevel := 2, level2 := Some(Level2(flashcards)))
    ensures r.Some? && prev.value.currentLevel == 2 ==>
      r.value == prev.value.(currentLevel := 3, level3 := Some(Level3(scenario.scenario, scenario.question, "", "", false)))
    ensures r.Some? && prev.value.currentLevel == 3 ==> r.value == prev.value.(isFinished := true)
  {
    if prev.None? then None
    else
      var nextLevel := prev.value.currentLevel + 1;
      if nextLevel > 3 then Some(prev.value.(isFinished := true))
      else if nextLevel == 2 then Some(prev.value.(currentLevel := 2, level2 := Some(Level2(flashcards))))
      else Some(prev.value.(currentLevel := 3, level3 := Some(Level3(scenario.scenario, scenario.question, "", "", false))))
  }

  /** Stores the learner's scenario answer and the feedback and marks the scenario evaluated;
      the scenario and question and every other field are kept. With no state or no Level-3
      record the result is null. */
  function EvaluateScenario(prev: Option<PuzzleState>, userAnswer: string, feedback: string): (r: Option<PuzzleState>)
    ensures r.None? <==> prev.None? || prev.value.level3.None?
    ensures r.Some? ==>
      var l3 := prev.value.level3.value;
      && r.value == prev.value.(level3 := r.value.level3)
      && r.value.level3 == Some(Level3(l3.scenario, l3.question, userAnswer, feedback, true))
  {
    if prev.None? || prev.value.level3.None? then None
    else
      var l3 := prev.value.level3.value;
      Some(prev.value.(level3 := Some(l3.(userAnswer := userAnswer, feedback := feedback, isEvaluated := true))))
  }
}
