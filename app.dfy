/** The application's top-level state and the handlers that change it step by step:
    generation from the setup screen (SETUP -> GENERATING -> DASHBOARD), and the
    puzzle-learning actions the dashboard forwards. Provider replies are parameters;
    each handler also returns the content requests it issued (the chat session made at
    generation is recorded in `chatSession` instead). */
module AppState {
  import opened Types
  import opened Text
  import opened GeminiService
  import opened Puzzle
  import opened PuzzleView
  import opened Setup
  import ChatPanel

  /** A content request the application makes to the service, with its arguments; creating the
      chat session is not one of them (it is recorded in `App.chatSession`). */
  datatype Request =
    | SummaryRequest(text: string, theme: Theme)
    | MindMapRequest(text: string, theme: Theme)
    | QuestionsRequest(text: string, theme: Theme, difficulty: Difficulty, count: QuestionCount)
    | FlashcardsRequest(text: string, theme: Theme)
    | ScenarioRequest(text: string, theme: Theme)
    | EvaluationRequest(text: string, scenario: string, question: string, userAnswer: string)

  /** The prompt the service sends to the model for a request. */
  function Prompt(r: Request): string
  {
    match r
    case SummaryRequest(text, theme) => SummaryPrompt(text, theme)
    case MindMapRequest(text, theme) => MindMapPrompt(text, theme)
    case QuestionsRequest(text, theme, difficulty, count) => QuestionsPrompt(text, theme, difficulty, count)
    case FlashcardsRequest(text, theme) => FlashcardsPrompt(text, theme)
    case ScenarioRequest(text, theme) => ScenarioPrompt(text, theme)
    case EvaluationRequest(text, scenario, question, userAnswer) => EvaluationPrompt(text, scenario, question, userAnswer)
  }

  /** Every content prompt opens with the themed base prompt and quotes the learner's text; the
      evaluation prompt quotes the source text and the learner's answer. */
  lemma PromptGrounded(r: Request)
    ensures !r.EvaluationRequest? ==> BasePrompt(r.theme) <= Prompt(r) && Contains(Prompt(r), TextBlock(r.text))
    ensures r.EvaluationRequest? ==> Contains(Prompt(r), SourceBlock(r.text)) && Contains(Prompt(r), AnswerBlock(r.userAnswer))
  {
    match r
    case SummaryRequest(text, theme) => TaskPromptShape(theme, SummaryTask, text);
    case MindMapRequest(text, theme) => TaskPromptShape(theme, MindMapTask, text);
    case QuestionsRequest(text, theme, difficulty, count) => TaskPromptShape(theme, QuestionsTask(difficulty, count), text);
    case FlashcardsRequest(text, theme) => TaskPromptShape(theme, FlashcardsTask, text);
    case ScenarioRequest(text, theme) => TaskPromptShape(theme, ScenarioTask, text);
    case EvaluationRequest(text, scenario, question, userAnswer) => EvaluationPromptEmbeds(text, scenario, question, userAnswer);
  }

  /** The chat session created at generation: the service builds its system instruction,
      ChatInstruction(text, theme), from these. */
  datatype ChatSession = ChatSession(text: string, theme: Theme)

  /** The module whose artifact a request fetches at generation, if any. */
  function ModuleOf(r: Request): (m: Option<LearningModule>)
    ensures m.Some? <==> r.SummaryRequest? || r.MindMapRequest? || r.QuestionsRequest?
    ensures m == Some(Summary) <==> r.SummaryRequest?
    ensures m == Some(MindMap) <==> r.MindMapRequest?
    ensures m == Some(PuzzleLearning) <==> r.QuestionsRequest?
  {
    match r
    case SummaryRequest(_, _) => Some(Summary)
    case MindMapRequest(_, _) => Some(MindMap)
    case QuestionsRequest(_, _, _, _) => Some(PuzzleLearning)
    case _ => None
  }

  /** Some request in `rs` fetches module `m`'s artifact. */
  predicate Asks(rs: seq<Request>, m: LearningModule)
  {
    exists k :: 0 <= k < |rs| && ModuleOf(rs[k]) == Some(m)
  }

  lemma AsksSnoc(rs: seq<Request>, r: Request)
    ensures forall m :: Asks(rs + [r], m) <==> Asks(rs, m) || ModuleOf(r) == Some(m)
  {
    forall m ensures Asks(rs + [r], m) <==> Asks(rs, m) || ModuleOf(r) == Some(m) {
      if Asks(rs + [r], m) {
        var k :| 0 <= k < |rs + [r]| && ModuleOf((rs + [r])[k]) == Some(m);
        if k < |rs| {
          assert ModuleOf(rs[k]) == Some(m);
        }
      }
      if Asks(rs, m) {
        var k :| 0 <= k < |rs| && ModuleOf(rs[k]) == Some(m);
        assert (rs + [r])[k] == rs[k];
      }
      if ModuleOf(r) == Some(m) {
        assert (rs + [r])[|rs|] == r;
      }
    }
  }

  class App {
    var view: View
    var activeTheme: Theme
    var baseText: string
    var orderedModules: seq<LearningModule>
    var generatedContent: GeneratedContent
    var puzzleState: Option<PuzzleState>
    /** The chat session, known by its system instruction; None while no session exists. */
    var chatSession: Option<ChatSession>
    /** Delayed "next question" callbacks scheduled and not yet run. */
    var pendingReveals: nat

    /** At rest the view is never GENERATING; before generation nothing exists; the puzzle
        state keeps its invariant; a reveal is scheduled exactly while one is pending; and the
        dashboard holds an artifact exactly for each selected module. */
    ghost predicate Valid()
      reads this
    {
      && view != Generating
      && (view == Setup ==>
            puzzleState.None? && generatedContent == NoContent && chatSession.None? && orderedModules == [])
      && (puzzleState.Some? ==> PuzzleInv(puzzleState.value))
      && pendingReveals == (if RevealPending(puzzleState) then 1 else 0)
      && (view == Dashboard ==>
            && (puzzleState.Some? <==> PuzzleLearning in orderedModules)
            && (generatedContent.summary.Some? <==> Summary in orderedModules)
            && (generatedContent.mindMap.Some? <==> MindMap in orderedModules)
            && (chatSession.Some? <==> Chat in orderedModules))
    }

    constructor ()
      ensures Valid() && view == Setup && activeTheme == Focus && baseText == ""
    {
      view := Setup;
      activeTheme := Focus;
      baseText := "";
      orderedModules := [];
      generatedContent := NoContent;
      puzzleState := None;
      chatSession := None;
      pendingReveals := 0;
    }

    /** Picking a theme on the setup screen. */
    method SelectTheme(theme: Theme)
      requires Valid() && view == Setup
      modifies this`activeTheme
      ensures Valid() && activeTheme == theme
    {
      activeTheme := theme;
    }

    /** The state generation leaves behind for the given input and provider replies. */
    ghost predicate GeneratedFrom(text: string, types: seq<LearningModule>, summary: string,
                                  mindMap: MindMapNode, questions: seq<Level1Question>)
      reads this
    {
      && view == Dashboard && baseText == text && orderedModules == types && pendingReveals == 0
      && generatedContent.summary == (if Summary in types then Some(summary) else None)
      && generatedContent.mindMap == (if MindMap in types then Some(mindMap) else None)
      && puzzleState == (if PuzzleLearning in types then Some(InitialPuzzle(questions)) else None)
      && chatSession == (if Chat in types then Some(ChatSession(text, activeTheme)) else None)
    }

    /** The requests generation issues: one per selected content module, each with its prompt. */
    static ghost predicate IssuedFor(sent: seq<Request>, text: string, theme: Theme, types: seq<LearningModule>, count: QuestionCount)
    {
      && (SummaryRequest(text, theme) in sent <==> Summary in types)
      && (MindMapRequest(text, theme) in sent <==> MindMap in types)
      && (QuestionsRequest(text, theme, Easy, count) in sent <==> PuzzleLearning in types)
      && |sent| == (if Summary in types then 1 else 0) + (if MindMap in types then 1 else 0)
                   + (if PuzzleLearning in types then 1 else 0)
    }

    /** "Generate" on the setup screen: rejected with no request and no state change unless the
        text is non-blank and a module is selected; otherwise generation runs on the form's text,
        its selected modules in the order they were added, and its question count. */
    method Submit(form: SetupScreen, summary: string, mindMap: MindMapNode, questions: seq<Level1Question>)
      returns (sent: seq<Request>)
      requires Valid() && view == Setup && form.Valid()
      modifies this
      ensures Valid() && activeTheme == old(activeTheme)
      ensures CanSubmit(form.text, form.selectedTypes) ==> Distinct(orderedModules)
      ensures !CanSubmit(form.text, form.selectedTypes) ==> sent == [] && unchanged(this)
      ensures CanSubmit(form.text, form.selectedTypes) ==>
                GeneratedFrom(form.text, form.selectedTypes, summary, mindMap, questions)
                && IssuedFor(sent, form.text, activeTheme, form.selectedTypes, form.questionCount)
    {
      if !CanSubmit(form.text, form.selectedTypes) {
        return [];
      }
      sent := Generate(form.text, form.selectedTypes, form.questionCount, summary, mindMap, questions);
    }

    /** The requests generation sends, in order: summary, mind map, Level-1 questions (at Easy
        difficulty), each only when its module is selected. The chat module sends none. */
    static method IssueRequests(text: string, theme: Theme, types: seq<LearningModule>, count: QuestionCount)
      returns (promises: seq<Request>)
      ensures IssuedFor(promises, text, theme, types, count)
      ensures Asks(promises, Summary) <==> Summary in types
      ensures Asks(promises, MindMap) <==> MindMap in types
      ensures Asks(promises, PuzzleLearning) <==> PuzzleLearning in types
    {
      promises := [];
      if Summary in types {
        AsksSnoc(promises, SummaryRequest(text, theme));
        promises := promises + [SummaryRequest(text, theme)];
      }
      if MindMap in types {
        AsksSnoc(promises, MindMapRequest(text, theme));
        promises := promises + [MindMapRequest(text, theme)];
      }
      if PuzzleLearning in types {
        AsksSnoc(promises, QuestionsRequest(text, theme, Easy, count));
        promises := promises + [QuestionsRequest(text, theme, Easy, count)];
      }
    }

    /** Waits for every issued request in turn; each settled request stores its artifact: the
        summary and mind map into the content, the Level-1 questions as a fresh puzzle. */
    static method AwaitAll(promises: seq<Request>, summary: string, mindMap: MindMapNode, initial: PuzzleState)
      returns (content: GeneratedContent, puzzle: Option<PuzzleState>)
      ensures content.summary == (if Asks(promises, Summary) then Some(summary) else None)
      ensures content.mindMap == (if Asks(promises, MindMap) then Some(mindMap) else None)
      ensures puzzle == (if Asks(promises, PuzzleLearning) then Some(initial) else None)
    {
      content := NoContent;
      puzzle := None;
      var i := 0;
      while i < |promises|
        invariant 0 <= i <= |promises|
        invariant content.summary == (if Asks(promises[..i], Summary) then Some(summary) else None)
        invariant content.mindMap == (if Asks(promises[..i], MindMap) then Some(mindMap) else None)
        invariant puzzle == (if Asks(promises[..i], PuzzleLearning) then Some(initial) else None)
      {
        AsksSnoc(promises[..i], promises[i]);
        assert promises[..i + 1] == promises[..i] + [promises[i]];
        match promises[i] {
          case SummaryRequest(_, _) =>
            content := content.(summary := Some(summary));
          case MindMapRequest(_, _) =>
            content := content.(mindMap := Some(mindMap));
          case QuestionsRequest(_, _, _, _) =>
            puzzle := Some(initial);
          case _ =>
        }
        i := i + 1;
      }
      assert promises[..|promises|] == promises;
    }

    /** Generation: requests each selected artifact, waits for all of them (a sequential join here),
        stores the results, creates the chat session if selected, and shows the dashboard. */
    method Generate(text: string, types: seq<LearningModule>, count: QuestionCount, summary: string,
                    mindMap: MindMapNode, questions: seq<Level1Question>)
      returns (sent: seq<Request>)
      requires Valid() && view == Setup
      modifies this
      ensures Valid() && activeTheme == old(activeTheme)
      ensures GeneratedFrom(text, types, summary, mindMap, questions)
      ensures IssuedFor(sent, text, activeTheme, types, count)
    {
      view := Generating;
      baseText := text;
      orderedModules := types;

      var promises := IssueRequests(text, activeTheme, types, count);
      var content, puzzle := AwaitAll(promises, summary, mindMap, InitialPuzzle(questions));
      InitialNotPending(questions);
      if Chat in types {
        chatSession := Some(ChatSession(text, activeTheme));
      }
      puzzleState := puzzle;
      generatedContent := content;
      view := Dashboard;
      sent := promises;
    }

    /** Opening the chat tab mounts a fresh chat panel on the session made at generation. The
        tab exists only when chat was selected, and then the session exists too. */
    method OpenChat() returns (panel: ChatPanel.Chat)
      requires Valid() && view == Dashboard && Chat in orderedModules
      ensures fresh(panel) && panel.Valid()
      ensures panel.hasSession == chatSession.Some? && panel.hasSession
      ensures panel.history == [] && panel.message == "" && !panel.isThinking
    {
      panel := new ChatPanel.Chat(chatSession.Some?);
    }

    /** Clicking an option of the question on screen: the answer is recorded, the score updated,
        and the delayed step that shows the next question is scheduled. */
    method PuzzleAnswer(qIndex: nat, answer: string)
      requires Valid() && view == Dashboard && AnswerOffered(puzzleState, qIndex, answer)
      modifies this`puzzleState, this`pendingReveals
      ensures Valid()
      ensures puzzleState == AnswerQuestion(old(puzzleState), qIndex, answer)
      ensures pendingReveals == old(pendingReveals) + 1
    {
      AnswerStep(puzzleState.value, qIndex, answer);
      puzzleState := AnswerQuestion(puzzleState, qIndex, answer);
      pendingReveals := pendingReveals + 1;
    }

    /** The scheduled callback runs: the next question is shown. */
    method RevealNext()
      requires Valid() && view == Dashboard && pendingReveals > 0
      modifies this`puzzleState, this`pendingReveals
      ensures Valid()
      ensures puzzleState == RevealNextQuestion(old(puzzleState))
      ensures pendingReveals == old(pendingReveals) - 1
    {
      RevealStep(puzzleState.value);
      puzzleState := RevealNextQuestion(puzzleState);
      pendingReveals := pendingReveals - 1;
    }

    /** The continue button: requests flashcards when leaving Level 1, a scenario when leaving
        Level 2, nothing when finishing, and applies the level advance. */
    method NextPuzzleLevel(flashcards: seq<Flashcard>, scenario: Scenario)
      returns (sent: Option<Request>)
      requires Valid() && view == Dashboard && ContinueOffered(puzzleState)
      modifies this`puzzleState
      ensures Valid()
      ensures puzzleState == AdvanceLevel(old(puzzleState), flashcards, scenario)
      ensures old(puzzleState).value.currentLevel == 1 ==> sent == Some(FlashcardsRequest(baseText, activeTheme))
      ensures old(puzzleState).value.currentLevel == 2 ==> sent == Some(ScenarioRequest(baseText, activeTheme))
      ensures old(puzzleState).value.currentLevel == 3 ==> sent.None?
    {
      var nextLevel := puzzleState.value.currentLevel + 1;
      if nextLevel > 3 {
        sent := None;
      } else if nextLevel == 2 {
        sent := Some(FlashcardsRequest(baseText, activeTheme));
      } else {
        sent := Some(ScenarioRequest(baseText, activeTheme));
      }
      ContinueStep(puzzleState.value, flashcards, scenario);
      puzzleState := AdvanceLevel(puzzleState, flashcards, scenario);
    }

    /** Submitting the scenario answer: one evaluation request carrying the source text, the
        scenario, the question and the answer; the feedback is stored and the scenario marked evaluated. */
    method PuzzleEvaluate(userAnswer: string, feedback: string) returns (sent: Request)
      requires Valid() && view == Dashboard && EvaluateOffered(puzzleState, userAnswer)
      modifies this`puzzleState
      ensures Valid()
      ensures puzzleState == EvaluateScenario(old(puzzleState), userAnswer, feedback)
      ensures sent == EvaluationRequest(baseText, old(puzzleState).value.level3.value.scenario,
                                        old(puzzleState).value.level3.value.question, userAnswer)
    {
      var level3 := puzzleState.value.level3.value;
      sent := EvaluationRequest(baseText, level3.scenario, level3.question, userAnswer);
      EvaluateStep(puzzleState.value, userAnswer, feedback);
      puzzleState := EvaluateScenario(puzzleState, userAnswer, feedback);
    }
  }
}
