# AI Puzzle-Based Learning — a Dafny model of its core

AI Puzzle-Based Learning is a single-page app. The learner pastes a text, picks a theme and
chooses learning modules: Summary, Chat with the Content, Mind Map and Puzzle Learning. A
language model then produces the material. Puzzle Learning has three levels: a multiple-choice
quiz, a flashcard review, and a short scenario whose free-text answer the model evaluates.

This project models that core in Dafny:

- `types.dfy` (module `Types`): the shared records, such as the theme and module enums, the
  puzzle state, the mind-map tree and the generated content.
- `text.dfy` (module `Text`): JavaScript's `trim`, the blank test `!s.trim()`, and substring
  containment, which is used to state what a prompt embeds.
- `gemini_service.dfy` (module `GeminiService`): the content service. It covers every prompt
  the service builds, and each generator's result, including the fixed placeholder it returns
  when the model call fails. A model reply is a parameter (`Reply.Ok(value)` or `Reply.Err`).
- `puzzle.dfy` (module `Puzzle`): the pure state updates applied to the puzzle state
  (answer, reveal the next question, advance a level, evaluate the scenario). It also defines
  the score as the number of correct answers and the invariant `PuzzleInv`.
- `puzzle_view.dfy` (module `PuzzleView`): which screen the puzzle module renders, and
  therefore which actions are offered. Its lemmas show that every offered action keeps
  `PuzzleInv`, that the levels only move forward, and that the scenario is evaluated once.
- `setup.dfy` (module `Setup`): the setup screen as a `SetupScreen` class (text, module selection, question count), its module toggle and its submit check.
- `app.dfy` (module `AppState`): the top-level `App` class, with its views SETUP, GENERATING
  and DASHBOARD. Generation requests each selected artifact and joins the replies in a loop.
  Every handler returns the content requests it made. The chat session that generation
  creates (App.tsx:479) is recorded in `App.chatSession`, not among the returned requests. `App.Submit` reads the `SetupScreen`, and
  `App.OpenChat` mounts a `ChatPanel.Chat` on the app's chat session.
- `chat.dfy` (module `ChatPanel`): the chat transcript. A send appends the user's entry, and
  the streamed reply is appended chunk by chunk to one model entry.

The delayed "next question" step (a one-second timer) is an explicit action,
`App.RevealNext`. `App.pendingReveals` counts the scheduled timers, and `App.Valid` ties that
count to the puzzle state.

A design consequence worth knowing is proved in `PuzzleView.FallbackQuizCannotProgress`. When
question generation fails, the placeholder question has no options. Nothing can then be
answered and no continue button appears, so Puzzle Learning is stuck at Level 1.

## Model

| member | source | states |
|---|---|---|
| `Types.ThemeValue` | ai-puzzle-based-learning/types.ts:1-7 | every theme carries a non-empty value with no double quote in it, so the quoted theme a prompt interpolates is exactly that value (`GeminiService.QuotedThemeDelimitsValue`) |
| `Types.ThemeValueInjective` | ai-puzzle-based-learning/types.ts:1-7 | distinct themes carry distinct values, so a prompt's theme text identifies the theme |
| `Types.ModuleLabelInjective` | ai-puzzle-based-learning/types.ts:9-14 | distinct modules carry distinct labels, so the module buttons' list keys are unique |
| `Text.Trim` | ai-puzzle-based-learning/services/geminiService.ts:24 | `trim` returns a slice of its input with no white space at either end, and only white space is cut away before and after it |
| `Text.TrimEmptyIffBlank` | ai-puzzle-based-learning/App.tsx:47 | `!s.trim()` holds exactly when every character of `s` is white space |
| `GeminiService.BasePromptTone` | ai-puzzle-based-learning/services/geminiService.ts:11-16 | the preamble opens with the educator sentence; deep focus asks for a clear, professional and direct tone, and every other theme is named in quotes followed by "theme" |
| `GeminiService.QuotedThemeDelimitsValue` | ai-puzzle-based-learning/services/geminiService.ts:14 | in the quoted theme the closing quote is the first double quote after the opening one, so the text between them is exactly the theme value (this uses `ThemeValue`'s no-quote clause) |
| `GeminiService.ThemeInstruction` | ai-puzzle-based-learning/services/geminiService.ts:12-14 | deep focus asks for the clear, professional and direct tone; every other theme opens with the "MUST be in a creative and engaging" lead and names its quoted value |
| `GeminiService.BasePrompt` | ai-puzzle-based-learning/services/geminiService.ts:11-16 | the preamble opens with the educator sentence and contains the tone sentence for the theme |
| `GeminiService.SummaryPrompt` | ai-puzzle-based-learning/services/geminiService.ts:22 | the summary prompt opens with the themed preamble, contains the summary task and quotes the learner text |
| `GeminiService.MindMapPrompt` | ai-puzzle-based-learning/services/geminiService.ts:35 | the mind-map prompt opens with the themed preamble, contains the mind-map task and quotes the learner text |
| `GeminiService.QuestionsPrompt` | ai-puzzle-based-learning/services/geminiService.ts:80 | the quiz prompt opens with the themed preamble, contains the quiz task for the requested difficulty and count, and quotes the learner text |
| `GeminiService.FlashcardsPrompt` | ai-puzzle-based-learning/services/geminiService.ts:109 | the flashcard prompt opens with the themed preamble, contains the flashcard task and quotes the learner text |
| `GeminiService.ScenarioPrompt` | ai-puzzle-based-learning/services/geminiService.ts:137 | the scenario prompt opens with the themed preamble, contains the scenario task and quotes the learner text |
| `GeminiService.EvaluationPrompt` | ai-puzzle-based-learning/services/geminiService.ts:162-174 | the evaluation prompt opens with the tutor instructions, not the themed preamble, and ends with the "EVALUATION:" cue |
| `GeminiService.ChatInstruction` | ai-puzzle-based-learning/services/geminiService.ts:187 | the chat system instruction opens with the study-assistant lead and ends with the learner text in triple quotes |
| `GeminiService.TaskPromptShape` | ai-puzzle-based-learning/services/geminiService.ts:18-24 | a content prompt starts with the themed preamble, contains its task, and quotes the learner text in a `TEXT: """…"""` block |
| `GeminiService.QuestionsPromptEmbedsRequest` | ai-puzzle-based-learning/services/geminiService.ts:76-80 | the quiz prompt asks for the requested difficulty and exactly the requested number of questions |
| `GeminiService.EvaluationPromptEmbeds` | ai-puzzle-based-learning/services/geminiService.ts:158-174 | the evaluation prompt opens with the tutor instructions and quotes the source text, scenario, question and student answer |
| `GeminiService.ChatInstructionEmbeds` | ai-puzzle-based-learning/services/geminiService.ts:183-190 | the chat session's system instruction quotes the theme value (deep focus included) and the learner text |
| `GeminiService.GenerateSummary` | ai-puzzle-based-learning/services/geminiService.ts:18-29 | a reply yields its trimmed text; a failure yields the fixed apology |
| `GeminiService.SummaryBlankOnlyFromBlankReply` | ai-puzzle-based-learning/services/geminiService.ts:18-29 | a summary is blank exactly when the model replied with blank text; the failure placeholder is never blank |
| `GeminiService.GenerateMindMap` | ai-puzzle-based-learning/services/geminiService.ts:31-74 | a reply yields the parsed tree; a failure yields the root "Error Generating Mind Map" with exactly one leaf child |
| `GeminiService.GenerateLevel1Questions` | ai-puzzle-based-learning/services/geminiService.ts:76-103 | a reply yields the parsed questions; a failure yields one placeholder question with no options and an empty answer |
| `GeminiService.GenerateLevel2Flashcards` | ai-puzzle-based-learning/services/geminiService.ts:105-131 | a reply yields the parsed cards; a failure yields one card whose term is "Error" |
| `GeminiService.GenerateLevel3Scenario` | ai-puzzle-based-learning/services/geminiService.ts:133-156 | a reply yields the parsed scenario; a failure yields the fixed placeholder scenario and question |
| `GeminiService.EvaluateLevel3Answer` | ai-puzzle-based-learning/services/geminiService.ts:158-181 | a reply yields its trimmed text; a failure yields the fixed apology |
| `Puzzle.CorrectBelowBound` | ai-puzzle-based-learning/App.tsx:494-495 | counting correct answers over a prefix never exceeds the prefix length |
| `Puzzle.CorrectBelowUnanswered` | ai-puzzle-based-learning/App.tsx:473 | with no answers recorded the count of correct answers is 0 |
| `Puzzle.CorrectBelowAllCorrect` | ai-puzzle-based-learning/App.tsx:494-495 | when every answer is correct, every question counts |
| `Puzzle.CorrectBelowRecord` | ai-puzzle-based-learning/App.tsx:493-495 | recording an answer in an empty slot raises the count by one exactly when that answer is the correct one |
| `Puzzle.Level1Inv` | ai-puzzle-based-learning/App.tsx:470-499 | (invariant, no contract of its own) one answer slot per question, the index within the questions, every earlier question answered and every later one not, and the score equal to the number of correct answers; it holds of the state made at 470-476 and `AnswerStep` and `RevealStep` show each Level-1 update keeps it |
| `Puzzle.PuzzleInv` | ai-puzzle-based-learning/App.tsx:470-541 | (invariant, no contract of its own) Level 1 always exists with `Level1Inv`, the Level-2 and Level-3 records exist exactly from their level on, a later level is reached only after Level 1 is done, an evaluated answer is non-blank, and finishing needs an evaluated scenario; `InitialPuzzle` establishes it and each step lemma of `PuzzleView` keeps it |
| `Puzzle.ScoreBounded` | ai-puzzle-based-learning/App.tsx:361 | under the invariant, the score shown as "score / total" never exceeds the number of questions |
| `Puzzle.AllCorrectFullScore` | ai-puzzle-based-learning/App.tsx:494-495 | answering every question correctly gives full marks |
| `Puzzle.InitialPuzzle` | ai-puzzle-based-learning/App.tsx:470-476 | the new puzzle is at Level 1, unfinished, on question 0 with score 0, one empty answer slot per question, Easy difficulty and no Level-2/3 records, and it satisfies the invariant |
| `Puzzle.AnswerQuestion` | ai-puzzle-based-learning/App.tsx:490-498 | null state or no Level 1 gives null; otherwise only slot `qIndex` changes, to the answer, the score rises by one exactly when the answer is correct, and every other field is kept |
| `Puzzle.RevealNextQuestion` | ai-puzzle-based-learning/App.tsx:496 | null state or no Level 1 gives null; otherwise the question index rises by one and nothing else changes |
| `Puzzle.AdvanceLevel` | ai-puzzle-based-learning/App.tsx:501-524 | Level 1 goes to 2 with the flashcards, Level 2 goes to 3 with the scenario and an empty unevaluated answer, and Level 3 becomes finished; the level never decreases and Level 1 is kept |
| `Puzzle.EvaluateScenario` | ai-puzzle-based-learning/App.tsx:534-537 | null state or no Level 3 gives null; otherwise the answer and feedback are stored, the scenario is marked evaluated, and the scenario, question and other fields are kept |
| `PuzzleView.ScreenOf` | ai-puzzle-based-learning/App.tsx:352-394 | no puzzle renders nothing and a finished one the completion screen, whatever else holds; the quiz shows the current question, below the number of questions, with its recorded answer; the Level-1 score line shows the score against the number of questions; the scenario form appears only at an unevaluated Level 3 |
| `PuzzleView.AnswerOfferedAsWritten` | ai-puzzle-based-learning/App.tsx:245-267 | as rendered, an option can be clicked exactly when the unfinished puzzle is at Level 1 on a question not yet passed, the option belongs to that question, and its recorded answer is not truthy (null or "") |
| `PuzzleView.AnswerOffered` | ai-puzzle-based-learning/App.tsx:267 | the corrected guard (options disabled once any answer is recorded) is stricter than the guard as written, and the two differ only when the recorded answer is "" |
| `PuzzleView.EvaluateOffered` | ai-puzzle-based-learning/App.tsx:336 | "Submit for Evaluation" can be clicked exactly when the unfinished puzzle is at Level 3, its scenario is not yet evaluated, and the trimmed answer is non-empty |
| `PuzzleView.ContinueOffered` | ai-puzzle-based-learning/App.tsx:353-386 | a continue button is shown exactly when the puzzle is unfinished and the current level is complete: Level 1 with every question passed, Level 2 with its cards, or Level 3 once evaluated |
| `PuzzleView.InitialNotPending` | ai-puzzle-based-learning/App.tsx:473 | a new puzzle has no pending reveal |
| `PuzzleView.OptionClass` | ai-puzzle-based-learning/App.tsx:257-266 | before an answer all options are plain; afterwards the correct option is green, a wrongly selected option red and the rest dimmed, each exactly when its condition holds |
| `PuzzleView.AnswerStep` | ai-puzzle-based-learning/App.tsx:490-499 | under the corrected guard `AnswerOffered`, answering the question on screen keeps the invariant, keeps the level and question index, raises the score exactly when the answer is correct, and leaves a reveal pending during which no option passes that guard; as written (line 267) the options stay enabled after an empty-string answer, see Findings |
| `PuzzleView.RevealStep` | ai-puzzle-based-learning/App.tsx:496 | the delayed step after an answer keeps the invariant and the score, moves the index to the next question, and leaves no reveal pending |
| `PuzzleView.ContinueStep` | ai-puzzle-based-learning/App.tsx:501-524 | an offered continue keeps the invariant and moves strictly forward: to Level 2 with the cards, to Level 3 with a fresh scenario, or to finished |
| `PuzzleView.EvaluateStep` | ai-puzzle-based-learning/App.tsx:526-541 | submitting a non-blank answer keeps the invariant and stores the answer and feedback; afterwards no further evaluation is offered and "Finish" is |
| `PuzzleView.NoContinueBeforeLevel1Done` | ai-puzzle-based-learning/App.tsx:356-368 | while Level 1 has questions left, no continue button is shown |
| `PuzzleView.FinishedOffersNothing` | ai-puzzle-based-learning/App.tsx:366 | a finished puzzle shows only the completion screen: no answer, continue or evaluation is offered |
| `PuzzleView.Level1DoneIffAllAnswered` | ai-puzzle-based-learning/App.tsx:356 | Level 1 is complete exactly when every question has an answer and no reveal is pending |
| `PuzzleView.FallbackQuizCannotProgress` | ai-puzzle-based-learning/services/geminiService.ts:99-102 | after failed question generation nothing can be answered, continued or evaluated |
| `PuzzleView.EmptyOptionScoredTwice` | ai-puzzle-based-learning/App.tsx:259-267 | as written, an empty-string option stays clickable after it is chosen; choosing it twice scores 2 for 1 question and shows "2 / 1" |
| `PuzzleView.EmptyOptionAnsweredOnce` | ai-puzzle-based-learning/App.tsx:259-267 | with the corrected guard, the same question is answered once and the score equals the number of correct answers |
| `Setup.Remove` | ai-puzzle-based-learning/App.tsx:87 | deleting a module keeps exactly the other modules and keeps the selection free of repeats; in a selection without repeats it cuts out the one occurrence and keeps the others in order |
| `Setup.Toggle` | ai-puzzle-based-learning/App.tsx:87 | clicking a module flips its membership, leaves every other module as it was, appends a newly added module at the end, cuts a deleted one out with the others' order kept, and keeps the selection free of repeats |
| `Setup.ToggleTwice` | ai-puzzle-based-learning/App.tsx:87 | clicking a module twice restores the set of selected modules |
| `Setup.SetupScreen.constructor` | ai-puzzle-based-learning/App.tsx:42-44 | the setup screen opens with empty text, only puzzle learning selected, and five questions |
| `Setup.SetupScreen.EditText` | ai-puzzle-based-learning/App.tsx:67 | typing replaces the text |
| `Setup.SetupScreen.ToggleModule` | ai-puzzle-based-learning/App.tsx:87 | clicking a module button applies `Toggle` to the selection and keeps it free of repeats |
| `Setup.SetupScreen.ChooseCount` | ai-puzzle-based-learning/App.tsx:90-97 | while puzzle learning is selected, a count button sets the question count |
| `Setup.CanSubmit` | ai-puzzle-based-learning/App.tsx:46-52 | "Generate" goes ahead exactly when the trimmed text is non-empty and at least one module is selected |
| `AppState.PromptGrounded` | ai-puzzle-based-learning/services/geminiService.ts:18-174 | every content request's prompt opens with the themed preamble and quotes the learner text; an evaluation prompt quotes the source text and the answer |
| `AppState.App.constructor` | ai-puzzle-based-learning/App.tsx:430-441 | the app starts in SETUP with the deep-focus theme and nothing generated |
| `AppState.App.SelectTheme` | ai-puzzle-based-learning/App.tsx:78 | picking a theme changes only the active theme |
| `AppState.App.Submit` | ai-puzzle-based-learning/App.tsx:46-52 | given a selection without repeats, a rejected submit makes no service call and leaves the app state unchanged (the alert is not modelled); an accepted one runs generation on the setup screen's text, its modules in insertion order, and its question count, so the dashboard's module order has no repeats |
| `AppState.App.IssueRequests` | ai-puzzle-based-learning/App.tsx:460-477 | one service call per selected content module (summary, mind map, and Level-1 questions at easy difficulty with the chosen count), none for chat, and no others |
| `AppState.App.AwaitAll` | ai-puzzle-based-learning/App.tsx:463-483 | once every request has settled, the content holds the summary and mind map exactly when they were requested, and a new puzzle exists exactly when questions were requested |
| `AppState.App.Generate` | ai-puzzle-based-learning/App.tsx:452-488 | the dashboard shows exactly the selected artifacts: a summary, mind map, puzzle (at its initial state) and chat session each exist exactly when that module was chosen; the invariant holds and the returned content requests are exactly those of IssueRequests; the chat session is recorded in `chatSession`, not among them |
| `AppState.App.OpenChat` | ai-puzzle-based-learning/App.tsx:422 | opening the chat tab mounts an empty, idle chat panel whose session flag is the app's chat session, and that session always exists when the tab does |
| `AppState.App.PuzzleAnswer` | ai-puzzle-based-learning/App.tsx:490-499 | the answer update is applied and one reveal is scheduled; the app invariant is kept |
| `AppState.App.RevealNext` | ai-puzzle-based-learning/App.tsx:496 | the scheduled step runs: the next question is shown and the timer count drops by one |
| `AppState.App.NextPuzzleLevel` | ai-puzzle-based-learning/App.tsx:501-524 | the level advance is applied; it fetches flashcards when leaving Level 1, a scenario when leaving Level 2, and nothing when finishing |
| `AppState.App.PuzzleEvaluate` | ai-puzzle-based-learning/App.tsx:526-541 | one evaluation call carries the base text, the scenario, the question and the answer, and the feedback is stored |
| `ChatPanel.ConcatAppend` | ai-puzzle-based-learning/App.tsx:184-186 | joining streamed chunks is compatible with splitting the stream at any point |
| `ChatPanel.StreamedPrefix` | ai-puzzle-based-learning/App.tsx:184-186 | while a reply streams, the text shown is a prefix of the final reply |
| `ChatPanel.Chat.constructor` | ai-puzzle-based-learning/App.tsx:167-171 | the panel starts with an empty transcript and message, and is not thinking |
| `ChatPanel.Chat.Edit` | ai-puzzle-based-learning/App.tsx:236 | while no reply is awaited (the input is disabled otherwise), typing replaces the message |
| `ChatPanel.Chat.CanSend` | ai-puzzle-based-learning/App.tsx:177 | a send goes ahead exactly when the trimmed message is non-empty, a session exists and no reply is awaited |
| `ChatPanel.Chat.BeginSend` | ai-puzzle-based-learning/App.tsx:176-181 | a blank message, a missing session or a pending reply changes nothing and sends nothing; otherwise the message is sent and appended as a user entry, the box is cleared and the thinking flag is raised |
| `ChatPanel.Chat.ReceiveReply` | ai-puzzle-based-learning/App.tsx:182-191 | a streamed reply adds one model entry holding the chunks in order; a refused request, or a stream that breaks off, adds the connection-error entry; the flag is lowered and the transcript again ends with a model entry |

## Left out

- Network calls to the language model, JSON parsing and the model's reply text are not modelled. Each reply is a parameter: `Reply<T>` for the generators, and `StreamOutcome` for chat. The App handlers take the service's result, already through its fallback, as a parameter.
- A reply that is valid JSON but does not have the declared shape is not modelled. The service casts the parsed value without checking it (services/geminiService.ts:69, 98, 126, 151), so such a value would reach the app: a non-array of questions would reach `new Array(questions.length)` (App.tsx:473) and the quiz's `currentQuestion.question` (App.tsx:255). In the model a parsed reply always has its declared type.
- The side effects that only report are not modelled: the `alert` on a rejected submit (App.tsx:48) and the `console.error` calls on every failure path (services/geminiService.ts:26, 71, 100, 128, 153, 178; App.tsx:189). "Changes nothing" in the contracts means the modelled state.
- The `API_KEY` start-up check (services/geminiService.ts:4-6) and the model name are not modelled.
- `isLoading` and `loadingText` (the loading overlay) are not modelled, since each handler is one atomic step in the model.
- Concurrency is not modelled. The model joins the generation requests one at a time in the order they were issued. Each settled request writes a different artifact, so the order does not change the result. The stale closures in `handleNextPuzzleLevel` and `handlePuzzleEvaluate`, and handlers firing while GENERATING, are not modelled either.
- React StrictMode's double calling of state updaters is not modelled.
- The one-second delay of the reveal timer is not modelled. `App.RevealNext` may run at any point after an answer.
- Puzzle.AnswerQuestion: requires `qIndex` to index both the questions and the answer slots, because the screen only ever passes the current question's index. For an index at or past the number of questions the updater first grows its copy of the answers and then throws when it reads the missing question's answer (App.tsx:494); that error path is not modelled. An index inside the questions but past the answer slots cannot arise, since both arrays have the same length from creation (App.tsx:473).
- AppState.App.PuzzleAnswer: requires the corrected answer guard `AnswerOffered`, not the guard as written. The as-written guard is `AnswerOfferedAsWritten`; see Findings.
- The app's handlers do not check which dashboard tab is active. The model offers the puzzle actions whenever the dashboard is shown.
- Switching dashboard tabs unmounts the chat panel and loses its transcript. This is not modelled, and `ChatPanel.Chat` lives for one mount.
- A streamed chunk whose text is undefined (JavaScript would append "undefined") is not modelled. Chunks are strings.
- These are left out because they are presentation, not state: the PDF export of the summary, mind map and chat (App.tsx:194-219 and the display components), the theme colour palettes and CSS variables (App.tsx:443-450), flashcard flipping, mind-map expansion, and auto-scrolling.
- The Level-3 form's local answer text is not modelled; the submitted answer is a parameter.
- The evaluation handler's early return when there is no puzzle or no Level-3 record (App.tsx:527) is not modelled as a separate path: `App.PuzzleEvaluate` requires `EvaluateOffered`, which holds only when a Level-3 record exists, so the handler never reaches that return from the screen. The pure update `Puzzle.EvaluateScenario` follows the state updater instead (App.tsx:534), which gives null in that case.
- Prompt injectivity (distinct themes or texts giving distinct prompts) is not proved. Only what each prompt contains is stated.

## Findings

| source | as written | input that shows it | evidently intended | confidence | as-written member | corrected member |
|---|---|---|---|---|---|---|
| ai-puzzle-based-learning/App.tsx:259-267 | the option buttons are disabled by `!!userAnswer`, so a recorded empty-string answer reads as "not answered yet" | a quiz of one question with options `[""]` and answer `""`: click the option twice before the one-second reveal runs; the score becomes 2 of 1 and the reveal runs twice | disable the options once any answer, "" included, is recorded, so each question is answered once | not executed | `PuzzleView.EmptyOptionScoredTwice` | `PuzzleView.EmptyOptionAnsweredOnce` |
