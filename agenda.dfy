/**
 * The agenda tab: the day's habit checklist (seeded with six default habits) and a task
 * list whose tasks carry one of six colour-coded categories.
 */
module AgendaTarefas {
  import opened Wrappers
  import opened Text
  import opened Records

  datatype Task = Task(id: string, title: string, description: string, category: string, completed: bool, date: string)

  datatype Habit = Habit(id: string, name: string, completed: bool)

  /** A task category: its stored value, the label shown for it, and its colour. */
  datatype TaskCategory = TaskCategory(value: string, caption: string, color: string)

  datatype TaskForm = TaskForm(title: string, description: string, category: string)

  /** The task dialog starts, and resets, on the "geral" category. */
  const EmptyTaskForm := TaskForm("", "", "geral")

  const TaskCategories: seq<TaskCategory> := [
    TaskCategory("corpo", "Corpo e Saúde", "red"),
    TaskCategory("mente", "Mente e Espírito", "purple"),
    TaskCategory("beleza", "Beleza", "pink"),
    TaskCategory("estudos", "Estudos", "blue"),
    TaskCategory("dinheiro", "Finanças", "green"),
    TaskCategory("geral", "Geral", "gray")
  ]

  const DefaultHabits: seq<string> := [
    "Beber 2L de água",
    "Meditar 10 minutos",
    "Exercício físico",
    "Ler 30 minutos",
    "Skincare completo",
    "Registrar gastos"
  ]

  /**
   * `defaultHabits.map((name, index) => ...)`: the id of each default habit is its index,
   * so the seeded habits are the six defaults, in order, none done, under the ids "0" to "5".
   */
  function DefaultHabitList(): (r: seq<Habit>)
    ensures |r| == 6
    ensures forall i :: 0 <= i < 6 ==> r[i].name == DefaultHabits[i] && !r[i].completed
    ensures forall i :: 0 <= i < 6 ==> r[i].id == Decimal(i)
    ensures r[0].id == "0" && r[1].id == "1" && r[2].id == "2" && r[3].id == "3" && r[4].id == "4" && r[5].id == "5"
    ensures forall i, j :: 0 <= i < j < 6 ==> r[i].id != r[j].id
  {
    assert forall i, j :: 0 <= i < j < 6 ==> Decimal(i) != Decimal(j) by {
      forall i, j | 0 <= i < j < 6 ensures Decimal(i) != Decimal(j) {
        DecimalRoundTrip(i);
        DecimalRoundTrip(j);
      }
    }
    seq(|DefaultHabits|, i requires 0 <= i < |DefaultHabits| => Habit(Decimal(i), DefaultHabits[i], false))
  }

  // ---------------------------------------------------------------- categories

  function IsCategory(category: string): TaskCategory -> bool
  {
    (c: TaskCategory) => c.value == category
  }

  /** No two categories share a value, and every colour and label is non-empty. */
  lemma TaskCategoriesWellFormed()
    ensures forall i, j :: 0 <= i < j < |TaskCategories| ==> TaskCategories[i].value != TaskCategories[j].value
    ensures forall i :: 0 <= i < |TaskCategories| ==> TaskCategories[i].color != "" && TaskCategories[i].caption != ""
  {
  }

  /**
   * `taskCategories.find(c => c.value === category)`: the category with that value, or
   * nothing when no category has it.
   */
  function FindCategory(category: string): (found: Option<TaskCategory>)
    ensures forall i :: 0 <= i < |TaskCategories| && TaskCategories[i].value == category ==> found == Some(TaskCategories[i])
    ensures (forall i :: 0 <= i < |TaskCategories| ==> TaskCategories[i].value != category) ==> found == None
  {
    var k := IndexWhere(TaskCategories, IsCategory(category));
    TaskCategoriesWellFormed();
    if k < |TaskCategories| then Some(TaskCategories[k]) else None
  }

  /**
   * `getCategoryColor`: the colour of the category with that value, "gray" for a value no
   * category has.
   */
  function CategoryColor(category: string): (color: string)
    ensures forall i :: 0 <= i < |TaskCategories| && TaskCategories[i].value == category ==> color == TaskCategories[i].color
    ensures (forall i :: 0 <= i < |TaskCategories| ==> TaskCategories[i].value != category) ==> color == "gray"
  {
    TaskCategoriesWellFormed();
    match FindCategory(category)
    case Some(c) => if c.color != "" then c.color else "gray"
    case None => "gray"
  }

  /**
   * `getCategoryLabel`: the label of the category with that value, "Geral" for a value no
   * category has.
   */
  function CategoryLabel(category: string): (caption: string)
    ensures forall i :: 0 <= i < |TaskCategories| && TaskCategories[i].value == category ==> caption == TaskCategories[i].caption
    ensures (forall i :: 0 <= i < |TaskCategories| ==> TaskCategories[i].value != category) ==> caption == "Geral"
  {
    TaskCategoriesWellFormed();
    match FindCategory(category)
    case Some(c) => if c.caption != "" then c.caption else "Geral"
    case None => "Geral"
  }

  // ---------------------------------------------------------------- toggles and counts

  function TaskHasId(id: string): Task -> bool
  {
    (t: Task) => t.id == id
  }

  function TaskNotId(id: string): Task -> bool
  {
    (t: Task) => t.id != id
  }

  function FlipTask(): Task -> Task
  {
    (t: Task) => t.(completed := !t.completed)
  }

  function HabitHasId(id: string): Habit -> bool
  {
    (h: Habit) => h.id == id
  }

  function HabitNotId(id: string): Habit -> bool
  {
    (h: Habit) => h.id != id
  }

  function FlipHabit(): Habit -> Habit
  {
    (h: Habit) => h.(completed := !h.completed)
  }

  function TaskDone(): Task -> bool
  {
    (t: Task) => t.completed
  }

  function DoneWithId(id: string): Task -> bool
  {
    (t: Task) => t.id == id && t.completed
  }

  function OpenWithId(id: string): Task -> bool
  {
    (t: Task) => t.id == id && !t.completed
  }

  /** `toggleTask`'s new list: the tasks with that id change state, nothing else changes. */
  function ToggledTasks(tasks: seq<Task>, id: string): (r: seq<Task>)
    ensures |r| == |tasks|
    ensures forall i :: 0 <= i < |r| ==> r[i].completed == (tasks[i].completed != (tasks[i].id == id))
    ensures forall i :: 0 <= i < |r| ==> r[i] == tasks[i].(completed := r[i].completed)
  {
    Update(tasks, TaskHasId(id), FlipTask())
  }

  /** `toggleHabit`'s new list: the habits with that id change state, nothing else changes. */
  function ToggledHabits(habits: seq<Habit>, id: string): (r: seq<Habit>)
    ensures |r| == |habits|
    ensures forall i :: 0 <= i < |r| ==> r[i].completed == (habits[i].completed != (habits[i].id == id))
    ensures forall i :: 0 <= i < |r| ==> r[i] == habits[i].(completed := r[i].completed)
  {
    Update(habits, HabitHasId(id), FlipHabit())
  }

  /** `completedTasks`. */
  function CompletedTasks(tasks: seq<Task>): (n: nat)
    ensures n <= |tasks|
  {
    |Filter(tasks, TaskDone())|
  }

  /** `completedHabits`. */
  function CompletedHabits(habits: seq<Habit>): (n: nat)
    ensures n <= |habits|
  {
    |Filter(habits, (h: Habit) => h.completed)|
  }

  /**
   * Toggling a task moves the done count: the open tasks with that id become done and
   * the done ones become open.
   */
  lemma {:induction false} ToggleMovesDoneCount(tasks: seq<Task>, id: string)
    ensures CompletedTasks(ToggledTasks(tasks, id)) + |Filter(tasks, DoneWithId(id))|
         == CompletedTasks(tasks) + |Filter(tasks, OpenWithId(id))|
  {
    if tasks != [] {
      ToggleMovesDoneCount(tasks[1..], id);
      var r := ToggledTasks(tasks, id);
      assert r[1..] == ToggledTasks(tasks[1..], id);
    }
  }

  /** Ticking a task twice leaves the list as it was. */
  lemma ToggleTaskTwice(tasks: seq<Task>, id: string)
    ensures ToggledTasks(ToggledTasks(tasks, id), id) == tasks
  {
    UpdateTwice(tasks, TaskHasId(id), FlipTask());
  }

  /** Ticking a habit twice leaves the checklist as it was. */
  lemma ToggleHabitTwice(habits: seq<Habit>, id: string)
    ensures ToggledHabits(ToggledHabits(habits, id), id) == habits
  {
    UpdateTwice(habits, HabitHasId(id), FlipHabit());
  }

  // ---------------------------------------------------------------- the component

  class AgendaTarefas {
    var tasks: seq<Task>
    var habits: seq<Habit>
    var newTask: TaskForm
    var newHabit: string

    constructor ()
      ensures tasks == [] && habits == DefaultHabitList()
      ensures newTask == EmptyTaskForm && newHabit == ""
    {
      tasks := [];
      habits := DefaultHabitList();
      newTask := EmptyTaskForm;
      newHabit := "";
    }

    method SetNewTask(form: TaskForm)
      modifies this`newTask
      ensures newTask == form
    {
      newTask := form;
    }

    method SetNewHabit(text: string)
      modifies this`newHabit
      ensures newHabit == text
    {
      newHabit := text;
    }

    /**
     * `addTask`: with a title, an open task is added under `id` and `date`; the dialog
     * resets to the "geral" category.
     */
    method AddTask(id: string, date: string)
      modifies this`tasks, this`newTask
      ensures var f := old(newTask);
        if f.title != "" then
          tasks == old(tasks) + [Task(id, f.title, f.description, f.category, false, date)] && newTask == EmptyTaskForm
        else
          tasks == old(tasks) && newTask == old(newTask)
      ensures CompletedTasks(tasks) == CompletedTasks(old(tasks))
    {
      if newTask.title != "" {
        var t := Task(id, newTask.title, newTask.description, newTask.category, false, date);
        FilterAppend(tasks, [t], TaskDone());
        tasks := tasks + [t];
        newTask := EmptyTaskForm;
      }
    }

    /** `toggleTask`. */
    method ToggleTask(id: string)
      modifies this`tasks
      ensures tasks == ToggledTasks(old(tasks), id)
    {
      tasks := ToggledTasks(tasks, id);
    }

    /** `deleteTask`. */
    method DeleteTask(id: string)
      modifies this`tasks
      ensures tasks == Filter(old(tasks), TaskNotId(id))
      ensures forall i :: 0 <= i < |tasks| ==> tasks[i].id != id
    {
      tasks := Filter(tasks, TaskNotId(id));
    }

    /** `toggleHabit`. */
    method ToggleHabit(id: string)
      modifies this`habits
      ensures habits == ToggledHabits(old(habits), id)
    {
      habits := ToggledHabits(habits, id);
    }

    /**
     * `addHabit`: a name that is not blank becomes an open habit; the name is stored as
     * typed, surrounding spaces included.
     */
    method AddHabit(id: string)
      modifies this`habits, this`newHabit
      ensures if HasText(old(newHabit)) then
          habits == old(habits) + [Habit(id, old(newHabit), false)] && newHabit == ""
        else
          habits == old(habits) && newHabit == old(newHabit)
    {
      if HasText(newHabit) {
        habits := habits + [Habit(id, newHabit, false)];
        newHabit := "";
      }
    }

    /** `deleteHabit`. */
    method DeleteHabit(id: string)
      modifies this`habits
      ensures habits == Filter(old(habits), HabitNotId(id))
      ensures forall i :: 0 <= i < |habits| ==> habits[i].id != id
    {
      habits := Filter(habits, HabitNotId(id));
    }
  }
}
