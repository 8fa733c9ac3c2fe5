/**
 * The onboarding quiz: a six-step wizard whose Next button is enabled by a per-step
 * guard and which hands the answers to the home page on the last step.
 */
module QuizWizard {
  import opened Wrappers
  import opened ImprovementPlans

  const TotalSteps := 6

  /** The answers the quiz starts from. */
  const InitialQuizData := QuizData(7, "", 5, 0, "", "")

  /** The values of the radio buttons of steps 2, 5 and 6. */
  const ExerciseOptions: set<string> := {"nunca", "1-2", "3-4", "5+"}
  const FinancialOptions: set<string> := {"nao-controlo", "basico", "planilha", "completo"}
  const SelfCareOptions: set<string> := {"nao", "ocasional", "regular", "completa"}

  /** The ranges of the sliders of steps 1, 3 and 4. */
  predicate InSliderRanges(d: QuizData)
  {
    3 <= d.sleepHours <= 12 && 1 <= d.stressLevel <= 10 && 0 <= d.studyHours <= 12
  }

  /** Each choice is still unanswered or one of its radio values. */
  predicate ChoicesWellFormed(d: QuizData)
  {
    && (d.exerciseFrequency == "" || d.exerciseFrequency in ExerciseOptions)
    && (d.financialControl == "" || d.financialControl in FinancialOptions)
    && (d.selfCareRoutine == "" || d.selfCareRoutine in SelfCareOptions)
  }

  /** All three choice questions are answered. */
  predicate Answered(d: QuizData)
  {
    d.exerciseFrequency != "" && d.financialControl != "" && d.selfCareRoutine != ""
  }

  /**
   * `canProceed`: steps 2, 5 and 6 need their choice answered; steps 1, 3 and 4 need a
   * positive sleep, a positive stress and a non-negative study value; any other step fails.
   */
  function CanProceedAt(step: int, d: QuizData): (ok: bool)
    ensures ok ==> 1 <= step <= TotalSteps
    ensures step == 2 ==> (ok <==> d.exerciseFrequency != "")
    ensures step == 5 ==> (ok <==> d.financialControl != "")
    ensures step == 6 ==> (ok <==> d.selfCareRoutine != "")
    ensures step == 1 ==> (ok <==> d.sleepHours > 0)
    ensures step == 3 ==> (ok <==> d.stressLevel > 0)
    ensures step == 4 ==> (ok <==> d.studyHours >= 0)
  {
    match step
    case 1 => d.sleepHours > 0
    case 2 => d.exerciseFrequency != ""
    case 3 => d.stressLevel > 0
    case 4 => d.studyHours >= 0
    case 5 => d.financialControl != ""
    case 6 => d.selfCareRoutine != ""
    case _ => false
  }

  /** Within the slider ranges the slider steps never hold the user back. */
  lemma SliderStepsAlwaysProceed(step: int, d: QuizData)
    requires InSliderRanges(d)
    requires step == 1 || step == 3 || step == 4
    ensures CanProceedAt(step, d)
  {
  }

  class Quiz {
    var step: int
    var quizData: QuizData

    /**
     * The step stays within 1..6, the answers within what the widgets can produce, and
     * every choice question already passed has been answered.
     */
    ghost predicate Valid()
      reads this
    {
      && 1 <= step <= TotalSteps
      && InSliderRanges(quizData)
      && ChoicesWellFormed(quizData)
      && (step > 2 ==> quizData.exerciseFrequency != "")
      && (step > 5 ==> quizData.financialControl != "")
    }

    constructor ()
      ensures Valid()
      ensures step == 1 && quizData == InitialQuizData
    {
      step := 1;
      quizData := InitialQuizData;
    }

    /**
     * `handleNext`, reachable only while Next is enabled: before the last step it moves
     * one step on; on the last step it stays and hands over the answers, which by then
     * are all given.
     */
    method HandleNext() returns (completed: Option<QuizData>)
      requires Valid() && CanProceedAt(step, quizData)
      modifies this`step
      ensures Valid()
      ensures old(step) < TotalSteps ==> step == old(step) + 1 && completed == None
      ensures old(step) == TotalSteps ==> step == old(step) && completed == Some(quizData)
      ensures completed.Some? ==> Answered(completed.value) && InSliderRanges(completed.value)
    {
      if step < TotalSteps {
        step := step + 1;
        completed := None;
      } else {
        completed := Some(quizData);
      }
    }

    /** `handleBack`: one step back, except on the first step. */
    method HandleBack()
      requires Valid()
      modifies this`step
      ensures Valid()
      ensures step == if old(step) > 1 then old(step) - 1 else old(step)
    {
      if step > 1 {
        step := step - 1;
      }
    }

    /** The sleep slider (3..12). */
    method SetSleepHours(value: int)
      requires Valid() && 3 <= value <= 12
      modifies this`quizData
      ensures Valid() && quizData == old(quizData).(sleepHours := value)
    {
      quizData := quizData.(sleepHours := value);
    }

    /** The stress slider (1..10). */
    method SetStressLevel(value: int)
      requires Valid() && 1 <= value <= 10
      modifies this`quizData
      ensures Valid() && quizData == old(quizData).(stressLevel := value)
    {
      quizData := quizData.(stressLevel := value);
    }

    /** The study slider (0..12). */
    method SetStudyHours(value: int)
      requires Valid() && 0 <= value <= 12
      modifies this`quizData
      ensures Valid() && quizData == old(quizData).(studyHours := value)
    {
      quizData := quizData.(studyHours := value);
    }

    /** The exercise radio group. */
    method SetExerciseFrequency(value: string)
      requires Valid() && value in ExerciseOptions
      modifies this`quizData
      ensures Valid() && quizData == old(quizData).(exerciseFrequency := value)
    {
      quizData := quizData.(exerciseFrequency := value);
    }

    /** The finances radio group. */
    method SetFinancialControl(value: string)
      requires Valid() && value in FinancialOptions
      modifies this`quizData
      ensures Valid() && quizData == old(quizData).(financialControl := value)
    {
      quizData := quizData.(financialControl := value);
    }

    /** The self-care radio group. */
    method SetSelfCareRoutine(value: string)
      requires Valid() && value in SelfCareOptions
      modifies this`quizData
      ensures Valid() && quizData == old(quizData).(selfCareRoutine := value)
    {
      quizData := quizData.(selfCareRoutine := value);
    }
  }

  /**
   * Back followed by Next returns to the step the user was on: after Back the Next button
   * is always enabled, because every choice before the current step is answered.
   */
  method BackThenNext(quiz: Quiz)
    requires quiz.Valid() && quiz.step > 1
    modifies quiz
    ensures quiz.Valid() && quiz.step == old(quiz.step) && quiz.quizData == old(quiz.quizData)
  {
    quiz.HandleBack();
    if quiz.step == 1 || quiz.step == 3 || quiz.step == 4 {
      SliderStepsAlwaysProceed(quiz.step, quiz.quizData);
    }
    var completed := quiz.HandleNext();
  }

  /** Answering every question and pressing Next six times completes the quiz with those answers. */
  method FullRun(sleep: int, exercise: string, stress: int, study: int, finance: string, selfCare: string)
    returns (completed: Option<QuizData>)
    requires 3 <= sleep <= 12 && 1 <= stress <= 10 && 0 <= study <= 12
    requires exercise in ExerciseOptions && finance in FinancialOptions && selfCare in SelfCareOptions
    ensures completed == Some(QuizData(sleep, exercise, stress, study, finance, selfCare))
  {
    var quiz := new Quiz();
    quiz.SetSleepHours(sleep);
    completed := quiz.HandleNext();
    quiz.SetExerciseFrequency(exercise);
    completed := quiz.HandleNext();
    quiz.SetStressLevel(stress);
    completed := quiz.HandleNext();
    quiz.SetStudyHours(study);
    completed := quiz.HandleNext();
    quiz.SetFinancialControl(finance);
    completed := quiz.HandleNext();
    quiz.SetSelfCareRoutine(selfCare);
    completed := quiz.HandleNext();
  }
}
