/** The setup screen's local logic: toggling a learning module in the selection and
    deciding whether "Generate" may start. The selection is a JavaScript `Set`, which
    keeps insertion order; it is modelled as a sequence without repetitions. */
module Setup {
  import opened Types
  import opened Text

  /** No module appears twice. */
  predicate Distinct(ms: seq<LearningModule>)
  {
    forall i, j :: 0 <= i < j < |ms| ==> ms[i] != ms[j]
  }

  /** The selection the setup screen starts with: puzzle learning only. */
  const InitialSelection: seq<LearningModule> := [PuzzleLearning]

  /** The question count the setup screen starts with. */
  const InitialQuestionCount := Five

  /** `ms` without `m`, the order of the others kept: in a selection without repeats, the
      one occurrence of `m` is cut out. */
  function Remove(ms: seq<LearningModule>, m: LearningModule): (r: seq<LearningModule>)
    ensures forall x :: x in r <==> x in ms && x != m
    ensures Distinct(ms) ==> Distinct(r)
    ensures m !in ms ==> r == ms
    ensures Distinct(ms) ==> forall i :: 0 <= i < |ms| && ms[i] == m ==> r == ms[..i] + ms[i + 1..]
  {
    if ms == [] then []
    else if ms[0] == m then
      assert Distinct(ms) ==> m !in ms[1..];
      Remove(ms[1..], m)
    else
      var rest := Remove(ms[1..], m);
      assert Distinct(ms) ==> Distinct(ms[1..]) && ms[0] !in rest;
      assert Distinct(ms) ==> forall i :: 0 <= i < |ms| && ms[i] == m ==> [ms[0]] + rest == ms[..i] + ms[i + 1..] by {
        if Distinct(ms) {
          forall i | 0 <= i < |ms| && ms[i] == m ensures [ms[0]] + rest == ms[..i] + ms[i + 1..] {
            assert ms[1..][i - 1] == m;
            ConsCut(ms, i, rest);
          }
        }
      }
      [ms[0]] + rest
  }

  /** Clicking a module button: a selected module is deleted from the set, any other one is
      added at the end. */
  function Toggle(selected: seq<LearningModule>, m: LearningModule): (r: seq<LearningModule>)
    ensures m in r <==> m !in selected
    ensures forall x :: x != m ==> (x in r <==> x in selected)
    ensures Distinct(selected) ==> Distinct(r)
    ensures m !in selected ==> r == selected + [m]
    ensures Distinct(selected) ==>
      forall i :: 0 <= i < |selected| && selected[i] == m ==> r == selected[..i] + selected[i + 1..]
  {
    if m in selected then Remove(selected, m) else selected + [m]
  }

  /** Toggling a module twice restores which modules are selected (though a module removed and
      re-added moves to the end of the order). */
  lemma ToggleTwice(selected: seq<LearningModule>, m: LearningModule)
    ensures forall x :: x in Toggle(Toggle(selected, m), m) <==> x in selected
  {
  }

  /** The setup screen's own state: the pasted text, the selected modules in the order they
      were added, and the requested number of quiz questions. */
  class SetupScreen {
    var text: string
    var selectedTypes: seq<LearningModule>
    var questionCount: QuestionCount

    /** The selection is a set: no module appears twice. */
    ghost predicate Valid()
      reads this
    {
      Distinct(selectedTypes)
    }

    /** The screen opens with no text, puzzle learning selected and five questions. */
    constructor ()
      ensures Valid()
      ensures text == "" && selectedTypes == InitialSelection && questionCount == InitialQuestionCount
    {
      text := "";
      selectedTypes := InitialSelection;
      questionCount := InitialQuestionCount;
    }

    /** Typing in the text area. */
    method EditText(t: string)
      modifies this`text
      ensures text == t
    {
      text := t;
    }

    /** Clicking a module button. */
    method ToggleModule(m: LearningModule)
      requires Valid()
      modifies this`selectedTypes
      ensures Valid() && selectedTypes == Toggle(old(selectedTypes), m)
    {
      selectedTypes := Toggle(selectedTypes, m);
    }

    /** Clicking a question-count button; the buttons are shown only while puzzle learning is selected. */
    method ChooseCount(count: QuestionCount)
      requires PuzzleLearning in selectedTypes
      modifies this`questionCount
      ensures questionCount == count
    {
      questionCount := count;
    }
  }

  /** Cutting index `i - 1` out of the tail and putting the head back cuts index `i` out of `ms`. */
  lemma ConsCut(ms: seq<LearningModule>, i: int, rest: seq<LearningModule>)
    requires 0 < i < |ms| && rest == ms[1..][..i - 1] + ms[1..][i..]
    ensures [ms[0]] + rest == ms[..i] + ms[i + 1..]
  {
    assert ms[..i] == [ms[0]] + ms[1..][..i - 1];
    assert ms[i + 1..] == ms[1..][i..];
  }

  /** "Generate" goes ahead only when the trimmed text is non-empty and at least one module is selected. */
  function CanSubmit(text: string, selected: seq<LearningModule>): (ok: bool)
    ensures ok <==> Trim(text) != "" && |selected| > 0
  {
    TrimEmptyIffBlank(text);
    !IsBlank(text) && |selected| != 0
  }
}
