/**
 * The sleep quiz: four form steps walked with "next" and "previous" buttons,
 * where "next" only moves on once the current step's answers are given, and
 * the last step shows the results instead of moving on.
 */
module SleepQuiz {
  import opened Wrappers

  /** The index of the last form step ("Informazioni Personali"). */
  const LastStep: int := 3

  /**
   * The quiz answers. A radio answer is None until chosen and then holds one
   * of the question's option names; email and name are free text.
   */
  datatype QuizForm = QuizForm(
    sleepDifficulty: Option<string>, sleepDuration: Option<string>,
    sleepQuality: Option<string>, wakeUpFeeling: Option<string>,
    caffeine: Option<string>, screenTime: Option<string>, stressLevel: Option<string>,
    sleepConditions: seq<string>, medications: string,
    email: string, name: string)

  /** An answer is truthy when it is set to a non-empty string. */
  predicate Given(a: Option<string>) {
    a.Some? && a.value != ""
  }

  /** The first step's four sleep-habit answers are all given. */
  predicate HabitsGiven(f: QuizForm) {
    Given(f.sleepDifficulty) && Given(f.sleepDuration) && Given(f.sleepQuality) && Given(f.wakeUpFeeling)
  }

  /** The second step's three lifestyle answers are all given. */
  predicate LifestyleGiven(f: QuizForm) {
    Given(f.caffeine) && Given(f.screenTime) && Given(f.stressLevel)
  }

  /** The last step's email and name are both non-empty. */
  predicate ContactGiven(f: QuizForm) {
    f.email != "" && f.name != ""
  }

  /** The page's state: the step shown, whether the results replace the form, and the submitted answers. */
  datatype QuizState = QuizState(step: int, showResults: bool, quizData: Option<QuizForm>)

  /** The page as it opens: first step, no results, no answers kept. */
  function Initial(): QuizState {
    QuizState(0, false, None)
  }

  /** `nextStep` with the form holding `values`. */
  function Next(s: QuizState, values: QuizForm): (r: QuizState)
    ensures s.step == 0 ==> r == (if HabitsGiven(values) then s.(step := 1) else s)
    ensures s.step == 1 ==> r == (if LifestyleGiven(values) then s.(step := 2) else s)
    ensures s.step == 2 ==> r == s.(step := 3)
    ensures s.step == LastStep ==>
              r == (if ContactGiven(values) then s.(showResults := true, quizData := Some(values)) else s)
    ensures r.step == s.step || r.step == s.step + 1
  {
    if s.step == 0 && !HabitsGiven(values) then s
    else if s.step == 1 && !LifestyleGiven(values) then s
    else if s.step == LastStep then
      if ContactGiven(values) then s.(showResults := true, quizData := Some(values)) else s
    else s.(step := s.step + 1)
  }

  /** `prevStep`: one step back, unguarded. */
  function Prev(s: QuizState): (r: QuizState)
    ensures r.step == s.step - 1 && r.showResults == s.showResults && r.quizData == s.quizData
  {
    s.(step := s.step - 1)
  }

  /** A click on one of the two buttons, with the form's values at that moment. */
  datatype Action = NextClick(values: QuizForm) | PrevClick

  /**
   * The buttons are shown only while the form is: "previous" only past the
   * first step, "next" on every step.
   */
  predicate Enabled(s: QuizState, a: Action)
    ensures Enabled(s, a) ==> !s.showResults
    ensures Enabled(s, a) && a.PrevClick? && s.step >= 0 ==> Prev(s).step >= 0
  {
    !s.showResults && (a.PrevClick? ==> s.step > 0)
  }

  /** The state after a sequence of clicks, where a click on a hidden button does nothing. */
  function Run(s: QuizState, actions: seq<Action>): QuizState
    decreases |actions|
  {
    if |actions| == 0 then s
    else
      var a := actions[0];
      var s' := if !Enabled(s, a) then s else match a
        case NextClick(values) => Next(s, values)
        case PrevClick => Prev(s);
      Run(s', actions[1..])
  }

  /**
   * What every reachable state satisfies: the step is one of the four form
   * steps, and results are shown only on the last step, with answers that
   * carry an email and a name.
   */
  ghost predicate Reachable(s: QuizState) {
    && 0 <= s.step <= LastStep
    && (s.showResults ==> s.step == LastStep && s.quizData.Some? && ContactGiven(s.quizData.value))
  }

  /** Every click a shown button allows keeps the state reachable. */
  lemma StepKeepsReachable(s: QuizState, a: Action)
    requires Reachable(s) && Enabled(s, a)
    ensures a.NextClick? ==> Reachable(Next(s, a.values))
    ensures a.PrevClick? ==> Reachable(Prev(s))
  {
  }

  /** From the opening state, no sequence of clicks leaves steps 0 to 3 or shows results without contact details. */
  lemma {:induction false} RunKeepsReachable(s: QuizState, actions: seq<Action>)
    requires Reachable(s)
    ensures Reachable(Run(s, actions))
    decreases |actions|
  {
    if |actions| > 0 {
      var a := actions[0];
      if Enabled(s, a) {
        StepKeepsReachable(s, a);
      }
      var s' := if !Enabled(s, a) then s else match a
        case NextClick(values) => Next(s, values)
        case PrevClick => Prev(s);
      RunKeepsReachable(s', actions[1..]);
    }
  }

  /** The quiz as the user walks it: `Initial()` and the clicks above keep it reachable. */
  lemma InitialRunsStayInRange(actions: seq<Action>)
    ensures 0 <= Run(Initial(), actions).step <= LastStep
  {
    RunKeepsReachable(Initial(), actions);
  }

  /** The page component, whose state setters update these three fields. */
  class QuizPage {
    var currentStep: int
    var showResults: bool
    var quizData: Option<QuizForm>

    function State(): QuizState
      reads this
    {
      QuizState(currentStep, showResults, quizData)
    }

    constructor ()
      ensures State() == Initial()
    {
      currentStep, showResults, quizData := 0, false, None;
    }

    /**
     * `nextStep`: the first two steps refuse to advance until their answers
     * are given, the third always advances, and the last stores the answers
     * and shows the results, staying on the same step.
     */
    method NextStep(values: QuizForm)
      modifies this
      ensures State() == Next(old(State()), values)
    {
      if currentStep == 0 {
        if !(Given(values.sleepDifficulty) && Given(values.sleepDuration) &&
             Given(values.sleepQuality) && Given(values.wakeUpFeeling)) {
          return;
        }
      } else if currentStep == 1 {
        if !(Given(values.caffeine) && Given(values.screenTime) && Given(values.stressLevel)) {
          return;
        }
      } else if currentStep == 3 {
        if !(values.email != "" && values.name != "") {
          return;
        }
        quizData := Some(values);
        showResults := true;
        return;
      }
      currentStep := currentStep + 1;
    }

    /** `prevStep`. */
    method PrevStep()
      modifies this
      ensures State() == Prev(old(State()))
    {
      currentStep := currentStep - 1;
    }
  }
}
