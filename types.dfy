/** The application's shared vocabulary: themes, learning modules, views and
    the records the puzzle-learning engine and the content generators exchange. */
module Types {

  /** A value that may be absent; stands for TypeScript's `T | null` and for optional properties. */
  datatype Option<+T> = None | Some(value: T)

  /** The five visual/tone themes a learner can pick. */
  datatype Theme = Space | Jungle | Aquatic | Action | Focus

  /** The string value each theme enum member carries. Prompts interpolate it between double
      quotes, so it is non-empty and holds no double quote of its own: the quoted theme in a
      prompt is exactly the value. */
  function ThemeValue(t: Theme): (v: string)
    ensures v != ""
    ensures forall k :: 0 <= k < |v| ==> v[k] != '"'
  {
    match t
    case Space => "space"
    case Jungle => "jungle"
    case Aquatic => "aquatic"
    case Action => "action"
    case Focus => "deep focus"
  }

  /** The four selectable learning modules. */
  datatype LearningModule = Summary | Chat | MindMap | PuzzleLearning

  /** The label each module enum member carries; the setup and dashboard buttons show it and
      use it as their list key. */
  function ModuleLabel(m: LearningModule): string
  {
    match m
    case Summary => "Summary"
    case Chat => "Chat with the Content"
    case MindMap => "Mind Map"
    case PuzzleLearning => "Puzzle Learning"
  }

  /** The top-level screen of the application. */
  datatype View = Setup | Generating | Dashboard

  datatype Difficulty = Easy | Medium | Hard

  function DifficultyName(d: Difficulty): string
  {
    match d
    case Easy => "easy"
    case Medium => "medium"
    case Hard => "hard"
  }

  /** The number of Level-1 questions a learner may request: 5, 10 or 15. */
  datatype QuestionCount = Five | Ten | Fifteen

  /** The decimal text of a question count, as a template literal prints it. */
  function CountText(c: QuestionCount): string
  {
    match c
    case Five => "5"
    case Ten => "10"
    case Fifteen => "15"
  }

  /** A multiple-choice question; `answer` is the text of the correct option. */
  datatype Level1Question = Level1Question(question: string, options: seq<string>, answer: string)

  datatype Flashcard = Flashcard(term: string, definition: string)

  /** The scenario and question the provider returns for Level 3. */
  datatype Scenario = Scenario(scenario: string, question: string)

  /** `currentLevel` ranges over 1, 2 and 3 only. */
  type LevelNumber = n: int | 1 <= n <= 3 witness 1

  datatype Level1 = Level1(
    questions: seq<Level1Question>,
    currentQuestionIndex: nat,
    userAnswers: seq<Option<string>>,
    score: nat,
    difficulty: Difficulty)

  datatype Level2 = Level2(flashcards: seq<Flashcard>)

  datatype Level3 = Level3(
    scenario: string,
    question: string,
    userAnswer: string,
    feedback: string,
    isEvaluated: bool)

  /** The whole state of the three-level quiz / flashcards / scenario sequence. */
  datatype PuzzleState = PuzzleState(
    currentLevel: LevelNumber,
    isFinished: bool,
    level1: Option<Level1>,
    level2: Option<Level2>,
    level3: Option<Level3>)

  /** A mind-map tree: a required topic and optional children. */
  datatype MindMapNode = MindMapNode(topic: string, children: Option<seq<MindMapNode>>)

  /** The generated artifacts kept for the dashboard: an optional mind map and an optional summary. */
  datatype GeneratedContent = GeneratedContent(mindMap: Option<MindMapNode>, summary: Option<string>)

  const NoContent := GeneratedContent(None, None)

  /** Distinct modules carry distinct labels, so the buttons' list keys are unique. */
  lemma ModuleLabelInjective(a: LearningModule, b: LearningModule)
    requires ModuleLabel(a) == ModuleLabel(b)
    ensures a == b
  {
  }

  /** Distinct themes carry distinct values, so a prompt's theme text identifies the theme. */
  lemma ThemeValueInjective(a: Theme, b: Theme)
    requires ThemeValue(a) == ThemeValue(b)
    ensures a == b
  {
  }
}
