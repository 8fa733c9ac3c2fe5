/**
 * The beauty and self-care tab: a small quiz (hair type, skin type, goals) that unlocks a
 * weekly care routine, a goal checklist toggled one goal at a time, and a product list.
 */
module BelezaAutocuidado {
  import opened Records

  datatype BeautyAnswers = BeautyAnswers(hairType: string, skinType: string, goals: seq<string>)

  datatype Product = Product(id: string, name: string, category: string, frequency: string)

  /** The "new product" dialog. */
  datatype ProductForm = ProductForm(name: string, category: string, frequency: string)

  const EmptyProductForm := ProductForm("", "", "")

  /** The care tasks a routine day can hold, in the order the generator pushes them. */
  datatype CareTask =
    | FacialCleansing | Moisturizer | Sunscreen | DeepCleansing | FacialSerum
    | HairWash | HairHydration | BodyExfoliation
  {
    function Text(): string
    {
      match this
      case FacialCleansing => "Limpeza facial (manhã)"
      case Moisturizer => "Hidratante facial"
      case Sunscreen => "Protetor solar"
      case DeepCleansing => "Limpeza profunda (noite)"
      case FacialSerum => "Sérum facial"
      case HairWash => "Lavagem dos cabelos"
      case HairHydration => "Hidratação capilar"
      case BodyExfoliation => "Esfoliação corporal"
    }

    /** Position in the push order. */
    function Rank(): nat
    {
      match this
      case FacialCleansing => 0
      case Moisturizer => 1
      case Sunscreen => 2
      case DeepCleansing => 3
      case FacialSerum => 4
      case HairWash => 5
      case HairHydration => 6
      case BodyExfoliation => 7
    }
  }

  datatype Routine = Routine(day: string, tasks: seq<CareTask>)

  const WeekDays: seq<string> := ["Segunda", "Terça", "Quarta", "Quinta", "Sexta", "Sábado", "Domingo"]

  const DailySkincare: seq<CareTask> := [FacialCleansing, Moisturizer, Sunscreen]

  /** The tasks of a day appear in push order, each at most once: ranks rise strictly. */
  predicate InPushOrder(tasks: seq<CareTask>)
  {
    forall i :: 0 < i < |tasks| ==> tasks[i - 1].Rank() < tasks[i].Rank()
  }

  /**
   * The tasks of the day at position `index` of the week: the three daily skincare tasks
   * first; deep cleansing and serum on even positions; hair wash on 1 and 4; hair
   * hydration on 3; body exfoliation on 0, 3 and 6; all in push order.
   */
  ghost predicate DayPlanFor(index: nat, tasks: seq<CareTask>)
  {
    var evening := index % 2 == 0;
    var wash := index == 1 || index == 4;
    var hydration := index == 3;
    var exfoliation := index == 0 || index == 3 || index == 6;
    && |tasks| == 3 + (if evening then 2 else 0) + (if wash then 1 else 0)
                    + (if hydration then 1 else 0) + (if exfoliation then 1 else 0)
    && tasks[..3] == DailySkincare
    && InPushOrder(tasks)
    && (DeepCleansing in tasks <==> evening)
    && (FacialSerum in tasks <==> evening)
    && (HairWash in tasks <==> wash)
    && (HairHydration in tasks <==> hydration)
    && (BodyExfoliation in tasks <==> exfoliation)
  }

  /** A week of routines: the seven week days in order, each with its own day plan. */
  ghost predicate IsWeeklyRoutine(routine: seq<Routine>)
  {
    && |routine| == |WeekDays|
    && forall i :: 0 <= i < |routine| ==> routine[i].day == WeekDays[i] && DayPlanFor(i, routine[i].tasks)
  }

  /**
   * The tasks the generator gives the day at `index`, as a list expression; every day
   * opens with the three daily skincare tasks.
   */
  function DayPlan(index: nat): (r: seq<CareTask>)
    ensures |r| >= 3 && r[..3] == DailySkincare
  {
    DailySkincare
    + (if index % 2 == 0 then [DeepCleansing, FacialSerum] else [])
    + (if index == 1 || index == 4 then [HairWash] else [])
    + (if index == 3 then [HairHydration] else [])
    + (if index == 0 || index == 3 || index == 6 then [BodyExfoliation] else [])
  }

  /** A list pushed in rank order with the given members meets `DayPlanFor`. */
  lemma DayPlanCase(index: nat, t: seq<CareTask>, evening: bool, wash: bool, hydration: bool, exfoliation: bool)
    requires evening == (index % 2 == 0) && wash == (index == 1 || index == 4)
    requires hydration == (index == 3) && exfoliation == (index == 0 || index == 3 || index == 6)
    requires t == DayPlan(index)
    requires |t| == 3 + (if evening then 2 else 0) + (if wash then 1 else 0)
                      + (if hydration then 1 else 0) + (if exfoliation then 1 else 0)
    requires InPushOrder(t)
    requires DeepCleansing in t <==> evening
    requires FacialSerum in t <==> evening
    requires HairWash in t <==> wash
    requires HairHydration in t <==> hydration
    requires BodyExfoliation in t <==> exfoliation
    ensures DayPlanFor(index, t)
  {
  }

  /** Monday and Sunday: evening care and body exfoliation. */
  lemma ExfoliationEveningDay(index: nat)
    requires index == 0 || index == 6
    ensures DayPlanFor(index, DayPlan(index))
  {
    var t := DayPlan(index);
    assert t == [FacialCleansing, Moisturizer, Sunscreen, DeepCleansing, FacialSerum, BodyExfoliation];
    DayPlanCase(index, t, true, false, false, true);
  }

  /** Tuesday: hair wash only. */
  lemma WashDay(index: nat)
    requires index == 1
    ensures DayPlanFor(index, DayPlan(index))
  {
    var t := DayPlan(index);
    assert t == [FacialCleansing, Moisturizer, Sunscreen, HairWash];
    DayPlanCase(index, t, false, true, false, false);
  }

  /** Thursday: hair hydration and body exfoliation. */
  lemma HydrationDay(index: nat)
    requires index == 3
    ensures DayPlanFor(index, DayPlan(index))
  {
    var t := DayPlan(index);
    assert t == [FacialCleansing, Moisturizer, Sunscreen, HairHydration, BodyExfoliation];
    DayPlanCase(index, t, false, false, true, true);
  }

  /** Friday: evening care and hair wash. */
  lemma WashEveningDay(index: nat)
    requires index == 4
    ensures DayPlanFor(index, DayPlan(index))
  {
    var t := DayPlan(index);
    assert t == [FacialCleansing, Moisturizer, Sunscreen, DeepCleansing, FacialSerum, HairWash];
    DayPlanCase(index, t, true, true, false, false);
  }

  /** Wednesday and any even index past the week: evening care only. */
  lemma EveningDay(index: nat)
    requires index % 2 == 0 && index != 0 && index != 4 && index != 6
    ensures DayPlanFor(index, DayPlan(index))
  {
    var t := DayPlan(index);
    assert t == [FacialCleansing, Moisturizer, Sunscreen, DeepCleansing, FacialSerum];
    DayPlanCase(index, t, true, false, false, false);
  }

  /** Saturday and any odd index past the week: the daily three only. */
  lemma PlainDay(index: nat)
    requires index % 2 == 1 && index != 1 && index != 3
    ensures DayPlanFor(index, DayPlan(index))
  {
    var t := DayPlan(index);
    assert t == [FacialCleansing, Moisturizer, Sunscreen];
    DayPlanCase(index, t, false, false, false, false);
  }

  /** The generator's list is the day plan described by `DayPlanFor`. */
  lemma DayPlanMeetsDescription(index: nat)
    ensures DayPlanFor(index, DayPlan(index))
  {
    if index == 0 || index == 6 {
      ExfoliationEveningDay(index);
    } else if index == 1 {
      WashDay(index);
    } else if index == 3 {
      HydrationDay(index);
    } else if index == 4 {
      WashEveningDay(index);
    } else if index % 2 == 0 {
      EveningDay(index);
    } else {
      PlainDay(index);
    }
  }

  /** In a list in push order every earlier task ranks below every later one. */
  lemma {:induction false} PushOrderPairwise(t: seq<CareTask>)
    requires InPushOrder(t)
    ensures forall i, j :: 0 <= i < j < |t| ==> t[i].Rank() < t[j].Rank()
  {
    if |t| > 1 {
      var rest := t[1..];
      PushOrderPairwise(rest);
      forall i, j | 0 <= i < j < |t| ensures t[i].Rank() < t[j].Rank() {
        if i == 0 && j > 1 {
          assert rest[0].Rank() < rest[j - 1].Rank();
        } else if i > 0 {
          assert rest[i - 1].Rank() < rest[j - 1].Rank();
        }
      }
    }
  }

  /** Two lists of one length in push order with the same tasks are the same list. */
  lemma {:induction false} PushOrderBySet(t: seq<CareTask>, u: seq<CareTask>)
    requires InPushOrder(t) && InPushOrder(u) && |t| == |u|
    requires forall x :: x in t <==> x in u
    ensures t == u
  {
    if t != [] {
      assert t[0] in u;
      PushOrderPairwise(t);
      PushOrderPairwise(u);
      assert u[0] in t;
      assert t[0].Rank() == u[0].Rank();
      assert t[0] == u[0];
      forall x ensures x in t[1..] <==> x in u[1..] {
        assert x in t[1..] <==> x in t && x != t[0];
        assert x in u[1..] <==> x in u && x != u[0];
      }
      PushOrderBySet(t[1..], u[1..]);
      calc {
        t;
        [t[0]] + t[1..];
        [u[0]] + u[1..];
        u;
      }
    }
  }

  /** Two lists meeting one day's description hold the same tasks. */
  lemma DayPlanForSameTasks(index: nat, t: seq<CareTask>, u: seq<CareTask>)
    requires DayPlanFor(index, t) && DayPlanFor(index, u)
    ensures |t| == |u|
    ensures forall x :: x in t <==> x in u
  {
    assert t[..3][0] == FacialCleansing && t[..3][1] == Moisturizer && t[..3][2] == Sunscreen;
    assert u[..3][0] == FacialCleansing && u[..3][1] == Moisturizer && u[..3][2] == Sunscreen;
    assert FacialCleansing in t && Moisturizer in t && Sunscreen in t;
    assert FacialCleansing in u && Moisturizer in u && Sunscreen in u;
  }

  /** The description pins the day down: only the generator's list meets it. */
  lemma DayPlanForUnique(index: nat, t: seq<CareTask>)
    requires DayPlanFor(index, t)
    ensures t == DayPlan(index)
  {
    var u := DayPlan(index);
    DayPlanMeetsDescription(index);
    DayPlanForSameTasks(index, t, u);
    PushOrderBySet(t, u);
  }

  /** Any two weeks meeting the description are the same week: the routine has no inputs. */
  lemma WeeklyRoutineUnique(a: seq<Routine>, b: seq<Routine>)
    requires IsWeeklyRoutine(a) && IsWeeklyRoutine(b)
    ensures a == b
  {
    forall i | 0 <= i < |a| ensures a[i] == b[i] {
      DayPlanForUnique(i, a[i].tasks);
      DayPlanForUnique(i, b[i].tasks);
    }
  }

  /** The body of the `weekDays.map` callback: the tasks of the day at `index`. */
  method DayTasks(index: nat) returns (tasks: seq<CareTask>)
    ensures tasks == DayPlan(index)
    ensures DayPlanFor(index, tasks)
  {
    tasks := [];
    tasks := tasks + [FacialCleansing];
    tasks := tasks + [Moisturizer];
    tasks := tasks + [Sunscreen];
    ghost var evening := if index % 2 == 0 then [DeepCleansing, FacialSerum] else [];
    ghost var wash := if index == 1 || index == 4 then [HairWash] else [];
    ghost var hydration := if index == 3 then [HairHydration] else [];
    ghost var exfoliation := if index == 0 || index == 3 || index == 6 then [BodyExfoliation] else [];
    if index % 2 == 0 {
      tasks := tasks + [DeepCleansing];
      tasks := tasks + [FacialSerum];
    }
    assert tasks == DailySkincare + evening;
    if index == 1 || index == 4 {
      tasks := tasks + [HairWash];
    }
    assert tasks == DailySkincare + evening + wash;
    if index == 3 {
      tasks := tasks + [HairHydration];
    }
    assert tasks == DailySkincare + evening + wash + hydration;
    if index == 0 || index == 3 || index == 6 {
      tasks := tasks + [BodyExfoliation];
    }
    assert tasks == DailySkincare + evening + wash + hydration + exfoliation;
    DayPlanMeetsDescription(index);
  }

  /** `generateRoutine`'s `weekDays.map`: one routine per week day, in week order. */
  method BuildWeeklyRoutine() returns (routine: seq<Routine>)
    ensures IsWeeklyRoutine(routine)
  {
    routine := [];
    for index := 0 to |WeekDays|
      invariant |routine| == index
      invariant forall i :: 0 <= i < index ==> routine[i].day == WeekDays[i] && DayPlanFor(i, routine[i].tasks)
    {
      var tasks := DayTasks(index);
      routine := routine + [Routine(WeekDays[index], tasks)];
    }
  }

  /** The day sizes of every generated week: 6, 4, 5, 5, 6, 3 and 6 tasks. */
  lemma WeeklyRoutineDaySizes(routine: seq<Routine>)
    requires IsWeeklyRoutine(routine)
    ensures |routine| == 7
    ensures |routine[0].tasks| == 6 && |routine[1].tasks| == 4 && |routine[2].tasks| == 5
    ensures |routine[3].tasks| == 5 && |routine[4].tasks| == 6 && |routine[5].tasks| == 3
    ensures |routine[6].tasks| == 6
  {
    assert DayPlanFor(0, routine[0].tasks) && DayPlanFor(1, routine[1].tasks) && DayPlanFor(2, routine[2].tasks);
    assert DayPlanFor(3, routine[3].tasks) && DayPlanFor(4, routine[4].tasks) && DayPlanFor(5, routine[5].tasks);
    assert DayPlanFor(6, routine[6].tasks);
  }

  /** The filter callback of `toggleGoal`: keep every goal but `goal`. */
  function OtherThan(goal: string): string -> bool
  {
    g => g != goal
  }

  /**
   * `toggleGoal`'s new goal list: a present goal is removed (every copy), an absent one
   * is appended; no other goal comes or goes, and a list without repeats keeps none.
   */
  function ToggledGoals(goals: seq<string>, goal: string): (r: seq<string>)
    ensures goal in r <==> goal !in goals
    ensures forall g :: g != goal ==> (g in r <==> g in goals)
    ensures Distinct(goals) ==> Distinct(r)
  {
    if goal in goals then
      var r := Filter(goals, OtherThan(goal));
      assert forall g :: g != goal && g in goals ==> g in r by {
        forall g | g != goal && g in goals ensures g in r {
          var i :| 0 <= i < |goals| && goals[i] == g;
        }
      }
      FilterDistinct(goals, OtherThan(goal));
      r
    else
      goals + [goal]
  }

  /** Ticking an unticked goal and then unticking it restores the list exactly. */
  lemma ToggleGoalTwice(goals: seq<string>, goal: string)
    requires goal !in goals
    ensures ToggledGoals(ToggledGoals(goals, goal), goal) == goals
  {
    FilterAppend(goals, [goal], OtherThan(goal));
    FilterKeepsAll(goals, OtherThan(goal));
    assert Filter([goal], OtherThan(goal)) == [];
  }

  class BelezaAutocuidado {
    var quizCompleted: bool
    var quizAnswers: BeautyAnswers
    var products: seq<Product>
    var weeklyRoutine: seq<Routine>
    var newProduct: ProductForm

    constructor ()
      ensures !quizCompleted && quizAnswers == BeautyAnswers("", "", [])
      ensures products == [] && weeklyRoutine == [] && newProduct == EmptyProductForm
    {
      quizCompleted := false;
      quizAnswers := BeautyAnswers("", "", []);
      products := [];
      weeklyRoutine := [];
      newProduct := EmptyProductForm;
    }

    /**
     * `handleQuizSubmit`: with a hair type, a skin type and at least one goal, the quiz is
     * completed and a fresh week is generated (the same week whatever the answers);
     * otherwise nothing changes.
     */
    method HandleQuizSubmit()
      modifies this`quizCompleted, this`weeklyRoutine
      ensures var ok := quizAnswers.hairType != "" && quizAnswers.skinType != "" && |quizAnswers.goals| > 0;
        && (ok ==> quizCompleted && IsWeeklyRoutine(weeklyRoutine))
        && (!ok ==> quizCompleted == old(quizCompleted) && weeklyRoutine == old(weeklyRoutine))
    {
      if quizAnswers.hairType != "" && quizAnswers.skinType != "" && |quizAnswers.goals| > 0 {
        quizCompleted := true;
        weeklyRoutine := BuildWeeklyRoutine();
      }
    }

    /** The "retake quiz" button. */
    method RetakeQuiz()
      modifies this`quizCompleted
      ensures !quizCompleted
    {
      quizCompleted := false;
    }

    /** The hair-type radio group. */
    method SetHairType(value: string)
      modifies this`quizAnswers
      ensures quizAnswers == old(quizAnswers).(hairType := value)
    {
      quizAnswers := quizAnswers.(hairType := value);
    }

    /** The skin-type radio group. */
    method SetSkinType(value: string)
      modifies this`quizAnswers
      ensures quizAnswers == old(quizAnswers).(skinType := value)
    {
      quizAnswers := quizAnswers.(skinType := value);
    }

    /** A goal checkbox: `toggleGoal`. */
    method ToggleGoal(goal: string)
      modifies this`quizAnswers
      ensures quizAnswers == old(quizAnswers).(goals := ToggledGoals(old(quizAnswers.goals), goal))
    {
      quizAnswers := quizAnswers.(goals := ToggledGoals(quizAnswers.goals, goal));
    }

    /** Typing into the product dialog. */
    method SetNewProduct(form: ProductForm)
      modifies this`newProduct
      ensures newProduct == form
    {
      newProduct := form;
    }

    /**
     * `addProduct`: with a name, a category and a frequency the product is appended under
     * the caller's `id` and the dialog cleared; otherwise nothing changes.
     */
    method AddProduct(id: string)
      modifies this`products, this`newProduct
      ensures var f := old(newProduct);
        if f.name != "" && f.category != "" && f.frequency != "" then
          products == old(products) + [Product(id, f.name, f.category, f.frequency)] && newProduct == EmptyProductForm
        else
          products == old(products) && newProduct == old(newProduct)
    {
      if newProduct.name != "" && newProduct.category != "" && newProduct.frequency != "" {
        products := products + [Product(id, newProduct.name, newProduct.category, newProduct.frequency)];
        newProduct := EmptyProductForm;
      }
    }
  }
}
