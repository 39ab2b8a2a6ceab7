/** The content-generation service: the prompts it sends to the language-model
    provider and what each generator returns, including the fixed placeholder
    it falls back to when the provider call throws or its reply is not valid JSON.
    The provider itself is abstract: its reply to a prompt is a `Reply`. */
module GeminiService {
  import opened Types
  import opened Text

  /** The provider's answer to one request: a parsed value, or a failure (the call throws,
      the reply has no text, or the text is not valid JSON). The parsed value is taken as
      having the declared shape; the service itself does not check it. */
  datatype Reply<T> = Ok(value: T) | Err

  // ---------------------------------------------------------------- prompts

  const Intro := "You are an expert educator and content creator. Your goal is to transform the provided text into an engaging learning aid. "

  const FocusTone := "clear, professional, and direct"

  const FocusInstruction := "Your response should be " + FocusTone + ", suitable for deep study."

  const ThemedLead := "Your response MUST be in a creative and engaging "

  /** The theme value in double quotes followed by the word "theme". */
  function QuotedTheme(theme: Theme): string
  {
    "\"" + ThemeValue(theme) + "\" theme"
  }

  /** The quoted theme names its value exactly: the closing quote is the first double quote
      after the opening one, so the text between them is the theme value and nothing more. */
  lemma QuotedThemeDelimitsValue(theme: Theme)
    ensures var q, v := QuotedTheme(theme), ThemeValue(theme);
      && q[0] == '"' && q[|v| + 1] == '"' && q[1..|v| + 1] == v
      && forall k :: 1 <= k < |v| + 1 ==> q[k] != '"'
  {
    var q, v := QuotedTheme(theme), ThemeValue(theme);
    assert q == "\"" + v + "\" theme";
    forall k | 1 <= k < |v| + 1 ensures q[k] != '"' {
      assert q[k] == v[k - 1];
    }
  }

  /** The tone sentence: deep focus asks for the neutral tone, every other theme names its
      quoted value. */
  function ThemeInstruction(theme: Theme): (r: string)
    ensures theme == Focus ==> Contains(r, FocusTone)
    ensures theme != Focus ==> ThemedLead <= r && Contains(r, QuotedTheme(theme))
  {
    if theme == Focus then
      ContainsMiddle("Your response should be ", FocusTone, ", suitable for deep study.");
      FocusInstruction
    else
      ContainsMiddle(ThemedLead, QuotedTheme(theme), ".");
      ThemedLead + QuotedTheme(theme) + "."
  }

  /** The preamble every content prompt starts with: the educator sentence, then the tone sentence. */
  function BasePrompt(theme: Theme): (p: string)
    ensures Intro <= p
    ensures Contains(p, ThemeInstruction(theme))
  {
    ContainsSelf(ThemeInstruction(theme));
    ContainsRight(Intro, ThemeInstruction(theme), ThemeInstruction(theme));
    Intro + ThemeInstruction(theme)
  }

  /** The learner's text in triple quotes, as content prompts end. */
  function TextBlock(text: string): string
  {
    "TEXT: \"\"\"" + text + "\"\"\""
  }

  /** A content prompt: preamble, the task, then the learner's text. */
  function TaskPrompt(theme: Theme, task: string, text: string): string
  {
    BasePrompt(theme) + "\n\n" + task + "\n\n" + TextBlock(text)
  }

  const SummaryTask := "Analyze the following text and generate a comprehensive summary. The summary should capture the key points and main ideas of the text in a clear and concise manner."

  const MindMapTask := "Analyze the following text and generate a hierarchical mind map structure. The mind map should represent the main topics, sub-topics, and key details from the text. Respond with ONLY the JSON object."

  /** The part of the Level-1 task that names the difficulty and the question count. */
  function QuestionsRequirement(difficulty: Difficulty, count: QuestionCount): string
  {
    "create a " + DifficultyName(difficulty) + " level practice test with exactly " + CountText(count) + " multiple-choice questions"
  }

  const QuestionsTaskLead := "Based on the following text, "

  const QuestionsTaskRest := ". Each question must have 4 options and you must indicate the single correct answer. Respond with ONLY the JSON array."

  function QuestionsTask(difficulty: Difficulty, count: QuestionCount): string
  {
    QuestionsTaskLead + QuestionsRequirement(difficulty, count) + QuestionsTaskRest
  }

  const FlashcardsTask := "Based on the following text, identify 8 key terms or concepts. For each one, provide a concise, one-sentence definition. Respond with ONLY the JSON array."

  const ScenarioTask := "Analyze the provided text. Create a VERY BRIEF (1-2 sentences) real-world scenario based on the text. Then, formulate a SINGLE, DIRECT question for the user to answer. The goal is a quick application of knowledge, not a long story. Respond with ONLY a JSON object."

  /** The summary prompt: the themed preamble, the summary task and the learner's text. */
  function SummaryPrompt(text: string, theme: Theme): (p: string)
    ensures BasePrompt(theme) <= p && Contains(p, SummaryTask) && Contains(p, TextBlock(text))
  {
    TaskPromptShape(theme, SummaryTask, text);
    TaskPrompt(theme, SummaryTask, text)
  }

  /** The mind-map prompt: the themed preamble, the mind-map task and the learner's text. */
  function MindMapPrompt(text: string, theme: Theme): (p: string)
    ensures BasePrompt(theme) <= p && Contains(p, MindMapTask) && Contains(p, TextBlock(text))
  {
    TaskPromptShape(theme, MindMapTask, text);
    TaskPrompt(theme, MindMapTask, text)
  }

  /** The Level-1 prompt: the themed preamble, the quiz task for this difficulty and count, and
      the learner's text. */
  function QuestionsPrompt(text: string, theme: Theme, difficulty: Difficulty, count: QuestionCount): (p: string)
    ensures BasePrompt(theme) <= p && Contains(p, QuestionsTask(difficulty, count)) && Contains(p, TextBlock(text))
  {
    TaskPromptShape(theme, QuestionsTask(difficulty, count), text);
    TaskPrompt(theme, QuestionsTask(difficulty, count), text)
  }

  /** The flashcard prompt: the themed preamble, the flashcard task and the learner's text. */
  function FlashcardsPrompt(text: string, theme: Theme): (p: string)
    ensures BasePrompt(theme) <= p && Contains(p, FlashcardsTask) && Contains(p, TextBlock(text))
  {
    TaskPromptShape(theme, FlashcardsTask, text);
    TaskPrompt(theme, FlashcardsTask, text)
  }

  /** The Level-3 prompt: the themed preamble, the scenario task and the learner's text. */
  function ScenarioPrompt(text: string, theme: Theme): (p: string)
    ensures BasePrompt(theme) <= p && Contains(p, ScenarioTask) && Contains(p, TextBlock(text))
  {
    TaskPromptShape(theme, ScenarioTask, text);
    TaskPrompt(theme, ScenarioTask, text)
  }

  const TutorInstructions := "You are an expert, empathetic tutor. Your task is to evaluate a student's answer to a scenario-based question. The student's answer might be short or informally phrased. Focus on understanding the *essence* and the core concepts the student is trying to convey, rather than nitpicking grammar or wording. Be a supportive mentor.\n            \nFirst, state whether the student is on the right track in a friendly tone. Then, provide constructive, encouraging feedback. Acknowledge the correct parts of their thinking and gently guide them on areas for improvement or concepts they might have missed, always referring back to the source material for justification."

  function SourceBlock(baseText: string): string { "SOURCE TEXT: \"\"\"" + baseText + "\"\"\"" }

  function ScenarioBlock(scenario: string): string { "SCENARIO: \"" + scenario + "\"" }

  function QuestionBlock(question: string): string { "QUESTION: \"" + question + "\"" }

  function AnswerBlock(userAnswer: string): string { "STUDENT'S ANSWER: \"" + userAnswer + "\"" }

  /** The cue the evaluation prompt ends with. */
  const EvaluationCue := "\n\nEVALUATION:"

  /** The evaluation prompt: it opens with the tutor instructions rather than the themed
      preamble, and ends by cueing the evaluation. */
  function EvaluationPrompt(baseText: string, scenario: string, question: string, userAnswer: string): (p: string)
    ensures TutorInstructions <= p
    ensures |EvaluationCue| <= |p| && p[|p| - |EvaluationCue|..] == EvaluationCue
  {
    var body := TutorInstructions + "\n\n" + SourceBlock(baseText) + "\n\n" + ScenarioBlock(scenario)
      + "\n\n" + QuestionBlock(question) + "\n\n" + AnswerBlock(userAnswer);
    assert (body + EvaluationCue)[|body|..] == EvaluationCue;
    body + EvaluationCue
  }

  const ChatLead := "You are a helpful study assistant. Your goal is to answer questions and discuss the provided text in detail. Maintain a helpful and encouraging tone, using a "

  const ChatMiddle := " in your responses. THE DOCUMENT YOU ARE DISCUSSING IS: "

  /** The system instruction of a chat session: the study-assistant lead, the quoted theme
      value (deep focus included), and the learner's text in triple quotes at the end. */
  function ChatInstruction(text: string, theme: Theme): (p: string)
    ensures ChatLead <= p
    ensures var doc := "\"\"\"" + text + "\"\"\""; |doc| <= |p| && p[|p| - |doc|..] == doc
  {
    var head := ChatLead + QuotedTheme(theme) + ChatMiddle;
    var doc := "\"\"\"" + text + "\"\"\"";
    assert head + "\"\"\"" + text + "\"\"\"" == head + doc;
    assert (head + doc)[|head|..] == doc;
    ChatLead + QuotedTheme(theme) + ChatMiddle + "\"\"\"" + text + "\"\"\""
  }

  // ------------------------------------------------------------- generators

  const SummaryFallback := "Error: Could not generate a summary for the provided text. Please try again."
  const MindMapFallbackTopic := "Error Generating Mind Map"
  const MindMapFallbackLeaf := "Please try again."
  const QuestionsFallbackText := "Failed to generate questions. Please try again."
  const FlashcardFallbackTerm := "Error"
  const FlashcardFallbackDefinition := "Failed to generate flashcards. Please try again."
  const ScenarioFallback := Scenario("Failed to generate a scenario.", "Please try advancing to this level again.")
  const EvaluationFallback := "Sorry, I was unable to evaluate your answer at this time. Please try again."

  /** The summary: the reply text with surrounding white space trimmed, or a fixed error message. */
  function GenerateSummary(reply: Reply<string>): (r: string)
    ensures reply.Err? ==> r == SummaryFallback
    ensures reply.Ok? ==> r == Trim(reply.value)
  {
    match reply
    case Ok(text) => Trim(text)
    case Err => SummaryFallback
  }

  /** The mind map: the parsed tree, or a root "Error Generating Mind Map" with one leaf child. */
  function GenerateMindMap(reply: Reply<MindMapNode>): (r: MindMapNode)
    ensures reply.Ok? ==> r == reply.value
    ensures reply.Err? ==> r.topic == MindMapFallbackTopic && r.children.Some? && |r.children.value| == 1
    ensures reply.Err? ==> r.children.value[0] == MindMapNode(MindMapFallbackLeaf, None)
  {
    match reply
    case Ok(tree) => tree
    case Err => MindMapNode(MindMapFallbackTopic, Some([MindMapNode(MindMapFallbackLeaf, None)]))
  }

  /** The Level-1 questions: the parsed array, or one placeholder question with no options and an empty answer. */
  function GenerateLevel1Questions(reply: Reply<seq<Level1Question>>): (r: seq<Level1Question>)
    ensures reply.Ok? ==> r == reply.value
    ensures reply.Err? ==> |r| == 1 && r[0].question == QuestionsFallbackText && r[0].options == [] && r[0].answer == ""
  {
    match reply
    case Ok(questions) => questions
    case Err => [Level1Question(QuestionsFallbackText, [], "")]
  }

  /** The flashcards: the parsed array, or one card whose term is "Error". */
  function GenerateLevel2Flashcards(reply: Reply<seq<Flashcard>>): (r: seq<Flashcard>)
    ensures reply.Ok? ==> r == reply.value
    ensures reply.Err? ==> |r| == 1 && r[0].term == FlashcardFallbackTerm && r[0].definition == FlashcardFallbackDefinition
  {
    match reply
    case Ok(cards) => cards
    case Err => [Flashcard(FlashcardFallbackTerm, FlashcardFallbackDefinition)]
  }

  /** The scenario: the parsed object, or a fixed placeholder scenario and question. */
  function GenerateLevel3Scenario(reply: Reply<Scenario>): (r: Scenario)
    ensures reply.Ok? ==> r == reply.value
    ensures reply.Err? ==> r == ScenarioFallback
  {
    match reply
    case Ok(scenario) => scenario
    case Err => ScenarioFallback
  }

  /** The feedback: the reply text trimmed, or a fixed apology. */
  function EvaluateLevel3Answer(reply: Reply<string>): (r: string)
    ensures reply.Ok? ==> r == Trim(reply.value)
    ensures reply.Err? ==> r == EvaluationFallback
  {
    match reply
    case Ok(text) => Trim(text)
    case Err => EvaluationFallback
  }

  // ----------------------------------------------------------------- lemmas

  /** Every content prompt opens with the fixed educator sentence; deep focus asks for a
      clear, professional, and direct tone, every other theme quotes its value followed by "theme". */
  lemma BasePromptTone(theme: Theme)
    ensures Intro <= BasePrompt(theme)
    ensures theme == Focus ==> Contains(BasePrompt(theme), "clear, professional, and direct")
    ensures theme != Focus ==> Contains(BasePrompt(theme), "\"" + ThemeValue(theme) + "\" theme")
  {
    if theme == Focus {
      ContainsTransitive(BasePrompt(theme), ThemeInstruction(theme), FocusTone);
    } else {
      ContainsTransitive(BasePrompt(theme), ThemeInstruction(theme), QuotedTheme(theme));
    }
  }

  /** A content prompt starts with the preamble, contains its task and ends with the quoted learner text. */
  lemma TaskPromptShape(theme: Theme, task: string, text: string)
    ensures BasePrompt(theme) <= TaskPrompt(theme, task, text)
    ensures Contains(TaskPrompt(theme, task, text), task)
    ensures Contains(TaskPrompt(theme, task, text), "TEXT: \"\"\"" + text + "\"\"\"")
  {
    PreambleTaskText(BasePrompt(theme), task, text);
  }

  /** The layout of a content prompt for any preamble `b`. */
  lemma PreambleTaskText(b: string, task: string, text: string)
    ensures b <= b + "\n\n" + task + "\n\n" + TextBlock(text)
    ensures Contains(b + "\n\n" + task + "\n\n" + TextBlock(text), task)
    ensures Contains(b + "\n\n" + task + "\n\n" + TextBlock(text), TextBlock(text))
  {
    ContainsMiddle(b + "\n\n", task, "\n\n");
    ContainsLeft(b + "\n\n" + task + "\n\n", TextBlock(text), task);
    ContainsSelf(TextBlock(text));
    ContainsRight(b + "\n\n" + task + "\n\n", TextBlock(text), TextBlock(text));
  }

  /** The Level-1 prompt asks for the requested difficulty and exactly the requested number of questions. */
  lemma QuestionsPromptEmbedsRequest(text: string, theme: Theme, difficulty: Difficulty, count: QuestionCount)
    ensures BasePrompt(theme) <= QuestionsPrompt(text, theme, difficulty, count)
    ensures Contains(QuestionsPrompt(text, theme, difficulty, count),
                     "create a " + DifficultyName(difficulty) + " level practice test with exactly " + CountText(count) + " multiple-choice questions")
  {
    var task := QuestionsTask(difficulty, count);
    TaskPromptShape(theme, task, text);
    ContainsMiddle(QuestionsTaskLead, QuestionsRequirement(difficulty, count), QuestionsTaskRest);
    ContainsTransitive(QuestionsPrompt(text, theme, difficulty, count), task, QuestionsRequirement(difficulty, count));
  }

  /** The evaluation prompt carries the source text, the scenario, the question and the learner's answer. */
  lemma EvaluationPromptEmbeds(baseText: string, scenario: string, question: string, userAnswer: string)
    ensures TutorInstructions <= EvaluationPrompt(baseText, scenario, question, userAnswer)
    ensures Contains(EvaluationPrompt(baseText, scenario, question, userAnswer), "SOURCE TEXT: \"\"\"" + baseText + "\"\"\"")
    ensures Contains(EvaluationPrompt(baseText, scenario, question, userAnswer), "SCENARIO: \"" + scenario + "\"")
    ensures Contains(EvaluationPrompt(baseText, scenario, question, userAnswer), "QUESTION: \"" + question + "\"")
    ensures Contains(EvaluationPrompt(baseText, scenario, question, userAnswer), "STUDENT'S ANSWER: \"" + userAnswer + "\"")
  {
    var nl := "\n\n";
    var s1, s2, s3, s4 := SourceBlock(baseText), ScenarioBlock(scenario), QuestionBlock(question), AnswerBlock(userAnswer);
    var p1 := TutorInstructions + nl + s1;
    var p2 := p1 + nl + s2;
    var p3 := p2 + nl + s3;
    var p4 := p3 + nl + s4;
    ContainsSelf(s1); ContainsSelf(s2); ContainsSelf(s3); ContainsSelf(s4);
    ContainsRight(TutorInstructions + nl, s1, s1);
    ContainsRight(p1 + nl, s2, s2);
    ContainsRight(p2 + nl, s3, s3);
    ContainsRight(p3 + nl, s4, s4);
    ContainsLeft(p1, nl, s1); ContainsLeft(p1 + nl, s2, s1);
    ContainsLeft(p2, nl, s1); ContainsLeft(p2 + nl, s3, s1);
    ContainsLeft(p2, nl, s2); ContainsLeft(p2 + nl, s3, s2);
    ContainsLeft(p3, nl, s1); ContainsLeft(p3 + nl, s4, s1);
    ContainsLeft(p3, nl, s2); ContainsLeft(p3 + nl, s4, s2);
    ContainsLeft(p3, nl, s3); ContainsLeft(p3 + nl, s4, s3);
    ContainsLeft(p4, "\n\nEVALUATION:", s1);
    ContainsLeft(p4, "\n\nEVALUATION:", s2);
    ContainsLeft(p4, "\n\nEVALUATION:", s3);
    ContainsLeft(p4, "\n\nEVALUATION:", s4);
  }

  /** A chat session's instruction quotes the theme value (deep focus included) and the learner text. */
  lemma ChatInstructionEmbeds(text: string, theme: Theme)
    ensures Contains(ChatInstruction(text, theme), "\"" + ThemeValue(theme) + "\" theme")
    ensures Contains(ChatInstruction(text, theme), text)
  {
    var q := QuotedTheme(theme);
    ContainsSelf(q);
    ContainsRight(ChatLead, q, q);
    ContainsLeft(ChatLead + q, ChatMiddle, q);
    ContainsLeft(ChatLead + q + ChatMiddle, "\"\"\"", q);
    ContainsLeft(ChatLead + q + ChatMiddle + "\"\"\"", text, q);
    ContainsLeft(ChatLead + q + ChatMiddle + "\"\"\"" + text, "\"\"\"", q);
    ContainsMiddle(ChatLead + q + ChatMiddle + "\"\"\"", text, "\"\"\"");
  }

  /** A summary is blank only when the provider itself replied with blank text;
      the failure placeholder is never blank. */
  lemma SummaryBlankOnlyFromBlankReply(reply: Reply<string>)
    ensures GenerateSummary(reply) == "" <==> reply.Ok? && IsBlank(reply.value)
  {
    match reply
    case Ok(text) => TrimEmptyIffBlank(text);
    case Err =>
  }
}
