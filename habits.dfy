/**
 * The tasks-and-habits screen backed by the hosted database: the local task list and
 * habit tracker change only after the database confirms each write. Every handler first
 * checks that the database client exists and does nothing otherwise; the shared client
 * module always creates one, so these guards are defensive, and `hasClient` keeps them
 * visible.
 */
module TarefasHabitos {
  import opened Wrappers
  import opened Text
  import opened Records

  datatype Tarefa = Tarefa(id: string, texto: string, concluida: bool)

  /** A habit with one done-flag per week day. */
  datatype Habito = Habito(id: string, nome: string, dias: seq<bool>)

  /** A `habits` row as loaded; `dias` may be null. */
  datatype HabitRow = HabitRow(id: string, nome: string, dias: Option<seq<bool>>)

  /** Seven days, none done. */
  const NoDays: seq<bool> := [false, false, false, false, false, false, false]

  /** `h.dias || [false × 7]`. */
  function DiasOrDefault(dias: Option<seq<bool>>): (r: seq<bool>)
    ensures dias.None? ==> |r| == 7 && forall i :: 0 <= i < 7 ==> !r[i]
    ensures dias.Some? ==> r == dias.value
  {
    if dias.Some? then dias.value else NoDays
  }

  /** `loadHabitos`' mapping of rows to habits. */
  function HabitsFromRows(rows: seq<HabitRow>): (r: seq<Habito>)
    ensures |r| == |rows|
    ensures forall i :: 0 <= i < |r| ==> r[i] == Habito(rows[i].id, rows[i].nome, DiasOrDefault(rows[i].dias))
  {
    seq(|rows|, i requires 0 <= i < |rows| => Habito(rows[i].id, rows[i].nome, DiasOrDefault(rows[i].dias)))
  }

  // ---------------------------------------------------------------- days and progress

  /** `novosDias` after the flip: day `i` changes, every other day and the week's length stay. */
  function FlipDay(dias: seq<bool>, i: nat): (r: seq<bool>)
    requires i < |dias|
    ensures |r| == |dias| && r[i] != dias[i]
    ensures forall j :: 0 <= j < |r| && j != i ==> r[j] == dias[j]
  {
    dias[i := !dias[i]]
  }

  function IsDone(): bool -> bool
  {
    (d: bool) => d
  }

  /** `habito.dias.filter(d => d).length`: the days done. */
  function DaysDone(dias: seq<bool>): (n: nat)
    ensures n <= |dias|
  {
    |Filter(dias, IsDone())|
  }

  /** Flipping a day moves the days-done count by one, up or down. */
  lemma {:induction false} FlipDayMovesCount(dias: seq<bool>, i: nat)
    requires i < |dias|
    ensures DaysDone(FlipDay(dias, i)) == if dias[i] then DaysDone(dias) - 1 else DaysDone(dias) + 1
  {
    var r := FlipDay(dias, i);
    if i == 0 {
      assert r[1..] == dias[1..];
    } else {
      assert r[1..] == FlipDay(dias[1..], i - 1);
      FlipDayMovesCount(dias[1..], i - 1);
    }
  }

  /** Flipping a day twice restores the week. */
  lemma FlipDayTwice(dias: seq<bool>, i: nat)
    requires i < |dias|
    ensures FlipDay(FlipDay(dias, i), i) == dias
  {
  }

  function Concluida(): Tarefa -> bool
  {
    (t: Tarefa) => t.concluida
  }

  /** `tarefasConcluidas`: never more than the tasks, and all of them exactly when every task is done. */
  function TarefasConcluidas(tarefas: seq<Tarefa>): (n: nat)
    ensures n <= |tarefas|
    ensures n == |tarefas| <==> forall i :: 0 <= i < |tarefas| ==> tarefas[i].concluida
  {
    FilterKeepsAllIff(tarefas, Concluida());
    |Filter(tarefas, Concluida())|
  }

  /** A share of `n` out of `d` as a percentage is in [0, 100], and 100 only for the whole. */
  lemma PercentageBounds(n: nat, d: nat)
    requires 0 < d && n <= d
    ensures 0.0 <= n as real / d as real * 100.0 <= 100.0
    ensures n as real / d as real * 100.0 == 100.0 <==> n == d
  {
    var q := n as real / d as real;
    assert q * d as real == n as real;
    if q * 100.0 == 100.0 {
      assert q == 1.0;
    }
  }

  /**
   * `progressoTarefas`: 0 without tasks, else the share of done tasks as a percentage;
   * it is within [0, 100], and 100 exactly when there are tasks and all are done.
   */
  function ProgressoTarefas(tarefas: seq<Tarefa>): (r: real)
    ensures 0.0 <= r <= 100.0
    ensures tarefas == [] ==> r == 0.0
    ensures r == 100.0 <==> tarefas != [] && forall i :: 0 <= i < |tarefas| ==> tarefas[i].concluida
  {
    FilterKeepsAllIff(tarefas, Concluida());
    if |tarefas| > 0 then
      PercentageBounds(TarefasConcluidas(tarefas), |tarefas|);
      TarefasConcluidas(tarefas) as real / |tarefas| as real * 100.0
    else
      0.0
  }

  // ---------------------------------------------------------------- list updates

  function TarefaHasId(id: string): Tarefa -> bool
  {
    (t: Tarefa) => t.id == id
  }

  function TarefaNotId(id: string): Tarefa -> bool
  {
    (t: Tarefa) => t.id != id
  }

  function FlipTarefa(): Tarefa -> Tarefa
  {
    (t: Tarefa) => t.(concluida := !t.concluida)
  }

  function HabitoHasId(id: string): Habito -> bool
  {
    (h: Habito) => h.id == id
  }

  function HabitoNotId(id: string): Habito -> bool
  {
    (h: Habito) => h.id != id
  }

  function WithDias(dias: seq<bool>): Habito -> Habito
  {
    (h: Habito) => h.(dias := dias)
  }

  /** Ticking a task twice, both writes confirmed, restores the list. */
  lemma ToggleTarefaTwice(tarefas: seq<Tarefa>, id: string)
    ensures Update(Update(tarefas, TarefaHasId(id), FlipTarefa()), TarefaHasId(id), FlipTarefa()) == tarefas
  {
    UpdateTwice(tarefas, TarefaHasId(id), FlipTarefa());
  }

  // ---------------------------------------------------------------- the component

  class TarefasHabitos {
    /** The handlers' `if (!supabase) return` guard: whether the database client exists. */
    const hasClient: bool
    var tarefas: seq<Tarefa>
    var novaTarefa: string
    var habitos: seq<Habito>
    var novoHabito: string
    var loading: bool
    var userId: Option<string>

    constructor (hasClient: bool)
      ensures this.hasClient == hasClient
      ensures tarefas == [] && novaTarefa == "" && habitos == [] && novoHabito == ""
      ensures loading && userId == None
    {
      this.hasClient := hasClient;
      tarefas := [];
      novaTarefa := "";
      habitos := [];
      novoHabito := "";
      loading := true;
      userId := None;
    }

    /** `loadTarefas`: a successful query replaces the list; a failed one leaves it. */
    method LoadTarefas(response: Option<seq<Tarefa>>)
      modifies this`tarefas
      ensures tarefas == if hasClient && response.Some? then response.value else old(tarefas)
    {
      if hasClient && response.Some? {
        tarefas := response.value;
      }
    }

    /** `loadHabitos`: a successful query replaces the habits, null day lists becoming seven open days. */
    method LoadHabitos(response: Option<seq<HabitRow>>)
      modifies this`habitos
      ensures habitos == if hasClient && response.Some? then HabitsFromRows(response.value) else old(habitos)
    {
      if hasClient && response.Some? {
        habitos := HabitsFromRows(response.value);
      }
    }

    /**
     * `loadUserData`: with a client and a signed-in user, the user's id is kept and both
     * lists are loaded; loading ends in every case.
     */
    method LoadUserData(user: Option<string>, tasks: Option<seq<Tarefa>>, habits: Option<seq<HabitRow>>)
      modifies this`userId, this`tarefas, this`habitos, this`loading
      ensures !loading
      ensures if hasClient && user.Some? then
          && userId == user
          && tarefas == (if tasks.Some? then tasks.value else old(tarefas))
          && habitos == (if habits.Some? then HabitsFromRows(habits.value) else old(habitos))
        else
          userId == old(userId) && tarefas == old(tarefas) && habitos == old(habitos)
    {
      if hasClient && user.Some? {
        userId := user;
        LoadTarefas(tasks);
        LoadHabitos(habits);
      }
      loading := false;
    }

    method SetNovaTarefa(text: string)
      modifies this`novaTarefa
      ensures novaTarefa == text
    {
      novaTarefa := text;
    }

    method SetNovoHabito(text: string)
      modifies this`novoHabito
      ensures novoHabito == text
    {
      novoHabito := text;
    }

    /**
     * `adicionarTarefa`: a non-blank text, a signed-in user and a confirmed insert (which
     * returns the new row's id) put an open task, text as typed, at the top of the list.
     */
    method AdicionarTarefa(insertedId: Option<string>)
      modifies this`tarefas, this`novaTarefa
      ensures if HasText(old(novaTarefa)) && userId.Some? && hasClient && insertedId.Some? then
          tarefas == [Tarefa(insertedId.value, old(novaTarefa), false)] + old(tarefas) && novaTarefa == ""
        else
          tarefas == old(tarefas) && novaTarefa == old(novaTarefa)
    {
      if HasText(novaTarefa) && userId.Some? && hasClient {
        if insertedId.Some? {
          tarefas := [Tarefa(insertedId.value, novaTarefa, false)] + tarefas;
          novaTarefa := "";
        }
      }
    }

    /** `toggleTarefa`: a confirmed update flips the task; an unknown id changes nothing. */
    method ToggleTarefa(id: string, ok: bool)
      modifies this`tarefas
      ensures if hasClient && ok && IndexWhere(old(tarefas), TarefaHasId(id)) < |old(tarefas)| then
          tarefas == Update(old(tarefas), TarefaHasId(id), FlipTarefa())
        else
          tarefas == old(tarefas)
    {
      if !hasClient {
        return;
      }
      var k := IndexWhere(tarefas, TarefaHasId(id));
      if k < |tarefas| && ok {
        tarefas := Update(tarefas, TarefaHasId(id), FlipTarefa());
      }
    }

    /** `removerTarefa`: a confirmed soft-delete drops the task from the list. */
    method RemoverTarefa(id: string, ok: bool)
      modifies this`tarefas
      ensures tarefas == if hasClient && ok then Filter(old(tarefas), TarefaNotId(id)) else old(tarefas)
      ensures forall i :: 0 <= i < |tarefas| && hasClient && ok ==> tarefas[i].id != id
    {
      if hasClient && ok {
        tarefas := Filter(tarefas, TarefaNotId(id));
      }
    }

    /**
     * `adicionarHabito`: a non-blank name, a signed-in user and a confirmed insert put a
     * habit with seven open days at the top of the list.
     */
    method AdicionarHabito(insertedId: Option<string>)
      modifies this`habitos, this`novoHabito
      ensures if HasText(old(novoHabito)) && userId.Some? && hasClient && insertedId.Some? then
          habitos == [Habito(insertedId.value, old(novoHabito), NoDays)] + old(habitos) && novoHabito == ""
        else
          habitos == old(habitos) && novoHabito == old(novoHabito)
    {
      if HasText(novoHabito) && userId.Some? && hasClient {
        if insertedId.Some? {
          habitos := [Habito(insertedId.value, novoHabito, NoDays)] + habitos;
          novoHabito := "";
        }
      }
    }

    /**
     * `toggleDiaHabito`: the day list of the first habit with that id is copied, day
     * `diaIndex` flipped in the copy, and on a confirmed update every habit with that id
     * takes the new days.
     */
    method ToggleDiaHabito(habitoId: string, diaIndex: nat, ok: bool)
      requires var k := IndexWhere(habitos, HabitoHasId(habitoId));
        k < |habitos| ==> diaIndex < |habitos[k].dias|
      modifies this`habitos
      ensures var k := IndexWhere(old(habitos), HabitoHasId(habitoId));
        if hasClient && ok && k < |old(habitos)| then
          habitos == Update(old(habitos), HabitoHasId(habitoId), WithDias(FlipDay(old(habitos)[k].dias, diaIndex)))
        else
          habitos == old(habitos)
    {
      if !hasClient {
        return;
      }
      var k := IndexWhere(habitos, HabitoHasId(habitoId));
      if k < |habitos| {
        var dias := habitos[k].dias;
        var novosDias := new bool[|dias|](i requires 0 <= i < |dias| => dias[i]);
        novosDias[diaIndex] := !novosDias[diaIndex];
        assert novosDias[..] == FlipDay(dias, diaIndex);
        if ok {
          habitos := Update(habitos, HabitoHasId(habitoId), WithDias(novosDias[..]));
        }
      }
    }

    /** `removerHabito`: a confirmed soft-delete drops the habit from the list. */
    method RemoverHabito(id: string, ok: bool)
      modifies this`habitos
      ensures habitos == if hasClient && ok then Filter(old(habitos), HabitoNotId(id)) else old(habitos)
    {
      if hasClient && ok {
        habitos := Filter(habitos, HabitoNotId(id));
      }
    }
  }

  /**
   * A new habit, one day ticked with the database confirming: the habit is on top with
   * exactly one day done.
   */
  method TickFirstDay(user: string, name: string, id: string, day: nat) returns (top: Habito, done: nat)
    requires HasText(name) && day < 7
    ensures top == Habito(id, name, FlipDay(NoDays, day))
    ensures done == 1
  {
    var screen := new TarefasHabitos(true);
    screen.LoadUserData(Some(user), Some([]), Some([]));
    screen.SetNovoHabito(name);
    screen.AdicionarHabito(Some(id));
    var added := Habito(id, name, NoDays);
    assert screen.habitos == [added];
    assert IndexWhere(screen.habitos, HabitoHasId(id)) == 0;
    screen.ToggleDiaHabito(id, day, true);
    assert screen.habitos == Update([added], HabitoHasId(id), WithDias(FlipDay(NoDays, day)));
    top := screen.habitos[0];
    OneDayTicked(day);
    done := DaysDone(top.dias);
  }

  /** A fresh week with one day ticked has exactly one day done. */
  lemma OneDayTicked(day: nat)
    requires day < 7
    ensures DaysDone(FlipDay(NoDays, day)) == 1
  {
    FlipDayMovesCount(NoDays, day);
    assert DaysDone(NoDays) == 0 by {
      assert forall i :: 0 <= i < 7 ==> !NoDays[i];
    }
  }
}
