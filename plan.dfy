/**
 * The improvement-plan generator of the home page (`generateImprovementPlan`): a fixed
 * rule table that turns the six onboarding-quiz answers into five ordered lists of
 * recommendations, one per area of the app.
 */
module ImprovementPlans {

  /** The quiz answers as the home page receives them. */
  datatype QuizData = QuizData(
    sleepHours: int,
    exerciseFrequency: string,
    stressLevel: int,
    studyHours: int,
    financialControl: string,
    selfCareRoutine: string)

  /** Every recommendation the generator can give; `Text` is the sentence shown. */
  datatype Recommendation =
    | SleepRoutine | ExerciseThreeTimesAWeek | EnjoyableActivity | Hydration | MedicalCheckups
    | Meditation | DeepBreathing | Hobbies | Gratitude | ProfessionalSupport
    | SkincareRoutine | SelfCareTime | Sunscreen | BalancedDiet | SkinTypeSkincare
    | DailyLearning | DailyReading | OnlineCourses | NewSkill | Documentaries
    | TrackExpenses | MonthlyBudget | EmergencyFund | FinancialGoals | InvestmentEducation | FinanceApp
  {
    function Text(): string
    {
      match this
      case SleepRoutine => "Estabeleça uma rotina de sono regular, dormindo pelo menos 7-8 horas por noite"
      case ExerciseThreeTimesAWeek => "Comece com 30 minutos de exercício físico 3x por semana"
      case EnjoyableActivity => "Experimente atividades que você goste: caminhada, dança, natação ou yoga"
      case Hydration => "Mantenha-se hidratado bebendo pelo menos 2L de água por dia"
      case MedicalCheckups => "Faça check-ups médicos regulares e cuide da sua saúde preventiva"
      case Meditation => "Pratique meditação ou mindfulness por 10 minutos diariamente"
      case DeepBreathing => "Considere técnicas de respiração profunda para momentos de estresse"
      case Hobbies => "Reserve tempo para hobbies e atividades que trazem alegria"
      case Gratitude => "Pratique gratidão diária anotando 3 coisas boas do seu dia"
      case ProfessionalSupport => "Considere buscar apoio profissional de um psicólogo ou terapeuta"
      case SkincareRoutine => "Crie uma rotina matinal e noturna de cuidados com a pele"
      case SelfCareTime => "Reserve pelo menos 30 minutos por dia para autocuidado"
      case Sunscreen => "Use protetor solar diariamente para proteger sua pele"
      case BalancedDiet => "Mantenha uma alimentação balanceada rica em frutas e vegetais"
      case SkinTypeSkincare => "Pratique skincare adequado ao seu tipo de pele"
      case DailyLearning => "Dedique pelo menos 1-2 horas diárias para aprendizado e desenvolvimento"
      case DailyReading => "Leia pelo menos 20 páginas por dia de livros que expandam seu conhecimento"
      case OnlineCourses => "Faça cursos online sobre temas do seu interesse"
      case NewSkill => "Pratique uma nova habilidade ou idioma regularmente"
      case Documentaries => "Assista documentários e conteúdos educativos"
      case TrackExpenses => "Comece a registrar todas suas despesas e receitas"
      case MonthlyBudget => "Crie um orçamento mensal e acompanhe seus gastos"
      case EmergencyFund => "Estabeleça uma reserva de emergência de 3-6 meses de despesas"
      case FinancialGoals => "Defina metas financeiras de curto, médio e longo prazo"
      case InvestmentEducation => "Eduque-se sobre investimentos e planejamento financeiro"
      case FinanceApp => "Considere usar apps de controle financeiro para facilitar o acompanhamento"
    }
  }

  /** The five lists: body, mind, beauty, study and money. */
  datatype ImprovementPlan = ImprovementPlan(
    corpo: seq<Recommendation>,
    mente: seq<Recommendation>,
    beleza: seq<Recommendation>,
    estudos: seq<Recommendation>,
    financas: seq<Recommendation>)

  // The answers each rule tests, spelled as the source compares them.

  predicate ExercisesRarely(exerciseFrequency: string)
  {
    exerciseFrequency == "nunca" || exerciseFrequency == "1-2"
  }

  predicate LacksSelfCare(selfCareRoutine: string)
  {
    selfCareRoutine == "nao" || selfCareRoutine == "ocasional"
  }

  predicate ControlsLoosely(financialControl: string)
  {
    financialControl == "nao-controlo" || financialControl == "basico"
  }

  /**
   * The body list: the sleep item first when sleep is under 7 hours, then the two exercise
   * items when exercise is rare, then hydration and check-ups, always last.
   */
  ghost predicate CorpoFor(sleepHours: int, exerciseFrequency: string, items: seq<Recommendation>)
  {
    var sleep := sleepHours < 7;
    var exercise := ExercisesRarely(exerciseFrequency);
    && |items| == (if sleep then 1 else 0) + (if exercise then 2 else 0) + 2
    && (sleep ==> items[0] == SleepRoutine)
    && (exercise ==> items[|items| - 4..|items| - 2] == [ExerciseThreeTimesAWeek, EnjoyableActivity])
    && items[|items| - 2..] == [Hydration, MedicalCheckups]
  }

  /**
   * The mind list: meditation and breathing first at stress 7 or more, then hobbies and
   * gratitude, then professional support last at stress 8 or more.
   */
  ghost predicate MenteFor(stressLevel: int, items: seq<Recommendation>)
  {
    var calm := stressLevel >= 7;
    var support := stressLevel >= 8;
    var b := if calm then 2 else 0;
    && |items| == b + 2 + (if support then 1 else 0)
    && (calm ==> items[..2] == [Meditation, DeepBreathing])
    && items[b..b + 2] == [Hobbies, Gratitude]
    && (support ==> items[b + 2] == ProfessionalSupport)
  }

  /** The beauty list: a skincare routine and self-care time first when self-care is rare, then three baseline items. */
  ghost predicate BelezaFor(selfCareRoutine: string, items: seq<Recommendation>)
  {
    var b := if LacksSelfCare(selfCareRoutine) then 2 else 0;
    && |items| == b + 3
    && (LacksSelfCare(selfCareRoutine) ==> items[..2] == [SkincareRoutine, SelfCareTime])
    && items[b..] == [Sunscreen, BalancedDiet, SkinTypeSkincare]
  }

  /** The study list: daily learning first under 2 study hours, then four baseline items. */
  ghost predicate EstudosFor(studyHours: int, items: seq<Recommendation>)
  {
    var b := if studyHours < 2 then 1 else 0;
    && |items| == b + 4
    && (studyHours < 2 ==> items[0] == DailyLearning)
    && items[b..] == [DailyReading, OnlineCourses, NewSkill, Documentaries]
  }

  /**
   * The money list: tracking and budgeting first for "nao-controlo" and "basico", then three
   * baseline items, then the finance-app reminder last for "nao-controlo" only.
   */
  ghost predicate FinancasFor(financialControl: string, items: seq<Recommendation>)
  {
    var none := financialControl == "nao-controlo";
    var b := if ControlsLoosely(financialControl) then 2 else 0;
    && |items| == b + 3 + (if none then 1 else 0)
    && (ControlsLoosely(financialControl) ==> items[..2] == [TrackExpenses, MonthlyBudget])
    && items[b..b + 3] == [EmergencyFund, FinancialGoals, InvestmentEducation]
    && (none ==> items[b + 3] == FinanceApp)
  }

  /** `plan` is the plan the rule table gives for `q`; each list looks only at its own answers. */
  ghost predicate IsPlanFor(q: QuizData, plan: ImprovementPlan)
  {
    && CorpoFor(q.sleepHours, q.exerciseFrequency, plan.corpo)
    && MenteFor(q.stressLevel, plan.mente)
    && BelezaFor(q.selfCareRoutine, plan.beleza)
    && EstudosFor(q.studyHours, plan.estudos)
    && FinancasFor(q.financialControl, plan.financas)
  }

  /**
   * `generateImprovementPlan`: five lists, each built by the conditional and unconditional
   * pushes of its own section.
   */
  method GenerateImprovementPlan(q: QuizData) returns (plan: ImprovementPlan)
    ensures IsPlanFor(q, plan)
  {
    var corpo := CorpoSection(q);
    var mente := MenteSection(q);
    var beleza := BelezaSection(q);
    var estudos := EstudosSection(q);
    var financas := FinancasSection(q);
    plan := ImprovementPlan(corpo, mente, beleza, estudos, financas);
  }

  method CorpoSection(q: QuizData) returns (corpo: seq<Recommendation>)
    ensures CorpoFor(q.sleepHours, q.exerciseFrequency, corpo)
  {
    corpo := [];
    if q.sleepHours < 7 {
      corpo := corpo + [SleepRoutine];
    }
    if q.exerciseFrequency == "nunca" || q.exerciseFrequency == "1-2" {
      corpo := corpo + [ExerciseThreeTimesAWeek];
      corpo := corpo + [EnjoyableActivity];
    }
    corpo := corpo + [Hydration];
    corpo := corpo + [MedicalCheckups];
  }

  method MenteSection(q: QuizData) returns (mente: seq<Recommendation>)
    ensures MenteFor(q.stressLevel, mente)
  {
    mente := [];
    if q.stressLevel >= 7 {
      mente := mente + [Meditation];
      mente := mente + [DeepBreathing];
    }
    mente := mente + [Hobbies];
    mente := mente + [Gratitude];
    if q.stressLevel >= 8 {
      mente := mente + [ProfessionalSupport];
    }
  }

  method BelezaSection(q: QuizData) returns (beleza: seq<Recommendation>)
    ensures BelezaFor(q.selfCareRoutine, beleza)
  {
    beleza := [];
    if q.selfCareRoutine == "nao" || q.selfCareRoutine == "ocasional" {
      beleza := beleza + [SkincareRoutine];
      beleza := beleza + [SelfCareTime];
    }
    beleza := beleza + [Sunscreen];
    beleza := beleza + [BalancedDiet];
    beleza := beleza + [SkinTypeSkincare];
  }

  method EstudosSection(q: QuizData) returns (estudos: seq<Recommendation>)
    ensures EstudosFor(q.studyHours, estudos)
  {
    estudos := [];
    if q.studyHours < 2 {
      estudos := estudos + [DailyLearning];
    }
    estudos := estudos + [DailyReading];
    estudos := estudos + [OnlineCourses];
    estudos := estudos + [NewSkill];
    estudos := estudos + [Documentaries];
  }

  method FinancasSection(q: QuizData) returns (financas: seq<Recommendation>)
    ensures FinancasFor(q.financialControl, financas)
  {
    financas := [];
    if q.financialControl == "nao-controlo" || q.financialControl == "basico" {
      financas := financas + [TrackExpenses];
      financas := financas + [MonthlyBudget];
    }
    financas := financas + [EmergencyFund];
    financas := financas + [FinancialGoals];
    financas := financas + [InvestmentEducation];
    if q.financialControl == "nao-controlo" {
      financas := financas + [FinanceApp];
    }
  }

  // The category predicates pin each list down completely.

  lemma CorpoUnique(sleepHours: int, exerciseFrequency: string, a: seq<Recommendation>, b: seq<Recommendation>)
    requires CorpoFor(sleepHours, exerciseFrequency, a) && CorpoFor(sleepHours, exerciseFrequency, b)
    ensures a == b
  {
    var n := |a|;
    assert a == a[..n - 2] + a[n - 2..] && b == b[..n - 2] + b[n - 2..];
    if ExercisesRarely(exerciseFrequency) {
      assert a[..n - 2] == a[..n - 4] + a[n - 4..n - 2] && b[..n - 2] == b[..n - 4] + b[n - 4..n - 2];
    }
    if sleepHours < 7 {
      assert a[..n - 2][..1] == [a[0]] && b[..n - 2][..1] == [b[0]];
    }
  }

  lemma MenteUnique(stressLevel: int, a: seq<Recommendation>, b: seq<Recommendation>)
    requires MenteFor(stressLevel, a) && MenteFor(stressLevel, b)
    ensures a == b
  {
    var k := if stressLevel >= 7 then 2 else 0;
    assert a == a[..k] + a[k..k + 2] + a[k + 2..] && b == b[..k] + b[k..k + 2] + b[k + 2..];
  }

  lemma BelezaUnique(selfCareRoutine: string, a: seq<Recommendation>, b: seq<Recommendation>)
    requires BelezaFor(selfCareRoutine, a) && BelezaFor(selfCareRoutine, b)
    ensures a == b
  {
    var k := if LacksSelfCare(selfCareRoutine) then 2 else 0;
    assert a == a[..k] + a[k..] && b == b[..k] + b[k..];
  }

  lemma EstudosUnique(studyHours: int, a: seq<Recommendation>, b: seq<Recommendation>)
    requires EstudosFor(studyHours, a) && EstudosFor(studyHours, b)
    ensures a == b
  {
    var k := if studyHours < 2 then 1 else 0;
    assert a == a[..k] + a[k..] && b == b[..k] + b[k..];
  }

  lemma FinancasUnique(financialControl: string, a: seq<Recommendation>, b: seq<Recommendation>)
    requires FinancasFor(financialControl, a) && FinancasFor(financialControl, b)
    ensures a == b
  {
    var k := if ControlsLoosely(financialControl) then 2 else 0;
    assert a == a[..k] + a[k..k + 3] + a[k + 3..] && b == b[..k] + b[k..k + 3] + b[k + 3..];
  }

  /** The generator is deterministic: the same answers always give the same plan. */
  lemma PlanIsDeterministic(q: QuizData, p1: ImprovementPlan, p2: ImprovementPlan)
    requires IsPlanFor(q, p1) && IsPlanFor(q, p2)
    ensures p1 == p2
  {
    CorpoUnique(q.sleepHours, q.exerciseFrequency, p1.corpo, p2.corpo);
    MenteUnique(q.stressLevel, p1.mente, p2.mente);
    BelezaUnique(q.selfCareRoutine, p1.beleza, p2.beleza);
    EstudosUnique(q.studyHours, p1.estudos, p2.estudos);
    FinancasUnique(q.financialControl, p1.financas, p2.financas);
  }

  /** Each list reads only its own answers: answers that agree on them give the same list. */
  lemma ListsReadOnlyTheirOwnAnswers(q1: QuizData, p1: ImprovementPlan, q2: QuizData, p2: ImprovementPlan)
    requires IsPlanFor(q1, p1) && IsPlanFor(q2, p2)
    ensures q1.sleepHours == q2.sleepHours && q1.exerciseFrequency == q2.exerciseFrequency ==> p1.corpo == p2.corpo
    ensures q1.stressLevel == q2.stressLevel ==> p1.mente == p2.mente
    ensures q1.selfCareRoutine == q2.selfCareRoutine ==> p1.beleza == p2.beleza
    ensures q1.studyHours == q2.studyHours ==> p1.estudos == p2.estudos
    ensures q1.financialControl == q2.financialControl ==> p1.financas == p2.financas
  {
    if q1.sleepHours == q2.sleepHours && q1.exerciseFrequency == q2.exerciseFrequency {
      CorpoUnique(q1.sleepHours, q1.exerciseFrequency, p1.corpo, p2.corpo);
    }
    if q1.stressLevel == q2.stressLevel {
      MenteUnique(q1.stressLevel, p1.mente, p2.mente);
    }
    if q1.selfCareRoutine == q2.selfCareRoutine {
      BelezaUnique(q1.selfCareRoutine, p1.beleza, p2.beleza);
    }
    if q1.studyHours == q2.studyHours {
      EstudosUnique(q1.studyHours, p1.estudos, p2.estudos);
    }
    if q1.financialControl == q2.financialControl {
      FinancasUnique(q1.financialControl, p1.financas, p2.financas);
    }
  }

  /** No list is ever empty; the shortest lists are 2, 2, 3, 4 and 3 long. */
  lemma MinimumLengths(q: QuizData, plan: ImprovementPlan)
    requires IsPlanFor(q, plan)
    ensures |plan.corpo| >= 2 && |plan.mente| >= 2 && |plan.beleza| >= 3
    ensures |plan.estudos| >= 4 && |plan.financas| >= 3
  {
  }

  /**
   * The body list: the sleep item is there exactly when sleep is under 7 hours, the exercise
   * items exactly when exercise is "nunca" or "1-2", and the list always ends with the baseline.
   */
  lemma CorpoContents(q: QuizData, plan: ImprovementPlan)
    requires IsPlanFor(q, plan)
    ensures SleepRoutine in plan.corpo <==> q.sleepHours < 7
    ensures ExerciseThreeTimesAWeek in plan.corpo <==> ExercisesRarely(q.exerciseFrequency)
    ensures EnjoyableActivity in plan.corpo <==> ExercisesRarely(q.exerciseFrequency)
    ensures SleepRoutine in plan.corpo ==> plan.corpo[0] == SleepRoutine
    ensures plan.corpo[|plan.corpo| - 2..] == [Hydration, MedicalCheckups]
  {
    var c := plan.corpo;
    var n := |c|;
    assert c == c[..n - 2] + [Hydration, MedicalCheckups];
    if ExercisesRarely(q.exerciseFrequency) {
      assert c == c[..n - 4] + [ExerciseThreeTimesAWeek, EnjoyableActivity, Hydration, MedicalCheckups];
    }
    if q.sleepHours < 7 {
      assert c[..1] == [SleepRoutine];
    }
  }

  /**
   * The mind list: meditation and breathing exactly at stress 7 or more, professional
   * support exactly at 8 or more and then last; so it has 2, 4 or 5 items, never 3.
   */
  lemma MenteContents(q: QuizData, plan: ImprovementPlan)
    requires IsPlanFor(q, plan)
    ensures Meditation in plan.mente <==> q.stressLevel >= 7
    ensures DeepBreathing in plan.mente <==> q.stressLevel >= 7
    ensures ProfessionalSupport in plan.mente <==> q.stressLevel >= 8
    ensures q.stressLevel >= 8 ==> plan.mente[|plan.mente| - 1] == ProfessionalSupport
    ensures |plan.mente| == 2 || |plan.mente| == 4 || |plan.mente| == 5
  {
    var m := plan.mente;
    if q.stressLevel >= 8 {
      assert m == [Meditation, DeepBreathing, Hobbies, Gratitude, ProfessionalSupport];
    } else if q.stressLevel >= 7 {
      assert m == [Meditation, DeepBreathing, Hobbies, Gratitude];
    } else {
      assert m == [Hobbies, Gratitude];
    }
  }

  /**
   * The money list: 6 items with the app reminder last for "nao-controlo", 5 for "basico",
   * and only the 3 baseline items for any other answer, the empty one included.
   */
  lemma FinancasContents(q: QuizData, plan: ImprovementPlan)
    requires IsPlanFor(q, plan)
    ensures q.financialControl == "nao-controlo" ==> |plan.financas| == 6 && plan.financas[5] == FinanceApp
    ensures q.financialControl == "basico" ==> |plan.financas| == 5
    ensures !ControlsLoosely(q.financialControl) ==> plan.financas == [EmergencyFund, FinancialGoals, InvestmentEducation]
    ensures FinanceApp in plan.financas <==> q.financialControl == "nao-controlo"
    ensures TrackExpenses in plan.financas <==> ControlsLoosely(q.financialControl)
  {
    var f := plan.financas;
    if q.financialControl == "nao-controlo" {
      assert f == [TrackExpenses, MonthlyBudget, EmergencyFund, FinancialGoals, InvestmentEducation, FinanceApp];
    } else if q.financialControl == "basico" {
      assert f == [TrackExpenses, MonthlyBudget, EmergencyFund, FinancialGoals, InvestmentEducation];
    } else {
      assert f == f[0..3];
    }
  }

  /** The beauty list has 5 items exactly for "nao" and "ocasional", else 3; the study list 5 exactly under 2 hours, else 4. */
  lemma BelezaEstudosLengths(q: QuizData, plan: ImprovementPlan)
    requires IsPlanFor(q, plan)
    ensures |plan.beleza| == 5 <==> LacksSelfCare(q.selfCareRoutine)
    ensures |plan.beleza| == 3 <==> !LacksSelfCare(q.selfCareRoutine)
    ensures |plan.estudos| == 5 <==> q.studyHours < 2
    ensures |plan.estudos| == 4 <==> q.studyHours >= 2
    ensures SkincareRoutine in plan.beleza <==> LacksSelfCare(q.selfCareRoutine)
    ensures DailyLearning in plan.estudos <==> q.studyHours < 2
  {
    var b := plan.beleza;
    var e := plan.estudos;
    if LacksSelfCare(q.selfCareRoutine) {
      assert b == [SkincareRoutine, SelfCareTime, Sunscreen, BalancedDiet, SkinTypeSkincare];
    } else {
      assert b == b[0..];
    }
    if q.studyHours < 2 {
      assert e == [DailyLearning, DailyReading, OnlineCourses, NewSkill, Documentaries];
    } else {
      assert e == e[0..];
    }
  }

  /** A sleepless, sedentary, stressed user with no routines gets the longest body, mind and money lists. */
  lemma WorstCaseAnswers(plan: ImprovementPlan)
    requires IsPlanFor(QuizData(5, "nunca", 9, 0, "nao-controlo", "nao"), plan)
    ensures plan.corpo == [SleepRoutine, ExerciseThreeTimesAWeek, EnjoyableActivity, Hydration, MedicalCheckups]
    ensures plan.mente == [Meditation, DeepBreathing, Hobbies, Gratitude, ProfessionalSupport]
    ensures |plan.financas| == 6
  {
    var c := plan.corpo;
    assert c == c[..1] + c[1..3] + c[3..];
    FinancasContents(QuizData(5, "nunca", 9, 0, "nao-controlo", "nao"), plan);
    MenteContents(QuizData(5, "nunca", 9, 0, "nao-controlo", "nao"), plan);
  }

  /** A rested, active, calm, studious and organised user gets only the baseline items. */
  lemma BestCaseAnswers(plan: ImprovementPlan)
    requires IsPlanFor(QuizData(8, "5+", 2, 5, "completo", "completa"), plan)
    ensures |plan.corpo| == 2 && |plan.mente| == 2 && |plan.beleza| == 3
    ensures |plan.estudos| == 4 && |plan.financas| == 3
  {
  }
}
