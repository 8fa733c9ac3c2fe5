/**
 * The money tab: a ledger of income and expense transactions with its three totals, the
 * per-category expense chart, and savings goals with their progress bars. Amounts are
 * whole cents.
 */
module DinheiroFinancas {
  import opened Wrappers
  import opened Records

  datatype Kind = Income | Expense

  datatype Transaction = Transaction(id: string, kind: Kind, amount: int, category: string, description: string, date: string)

  datatype FinancialGoal = FinancialGoal(id: string, name: string, targetAmount: int, currentAmount: int)

  /** The "new transaction" dialog; `amount` is the typed text. */
  datatype TransactionForm = TransactionForm(kind: Kind, amount: string, category: string, description: string)

  /** The "new goal" dialog; both amounts are typed text. */
  datatype GoalForm = GoalForm(name: string, targetAmount: string, currentAmount: string)

  /** One bar of the expense chart. */
  datatype CategoryExpense = CategoryExpense(category: string, amount: int)

  const EmptyTransactionForm := TransactionForm(Expense, "", "", "")

  const EmptyGoalForm := GoalForm("", "", "")

  const ExpenseCategories: seq<string> :=
    ["Alimentação", "Transporte", "Moradia", "Saúde", "Educação", "Lazer", "Vestuário", "Outros"]

  // ---------------------------------------------------------------- totals

  function Amount(): Transaction -> int
  {
    (t: Transaction) => t.amount
  }

  function OfKind(kind: Kind): Transaction -> bool
  {
    (t: Transaction) => t.kind == kind
  }

  /** `totalIncome`; with no negative amount it is never negative. */
  function TotalIncome(ts: seq<Transaction>): (r: int)
    ensures (forall i :: 0 <= i < |ts| ==> ts[i].amount >= 0) ==> r >= 0
  {
    SumNonNegative(Filter(ts, OfKind(Income)), Amount());
    Sum(Filter(ts, OfKind(Income)), Amount())
  }

  /** `totalExpenses`; with no negative amount it is never negative. */
  function TotalExpenses(ts: seq<Transaction>): (r: int)
    ensures (forall i :: 0 <= i < |ts| ==> ts[i].amount >= 0) ==> r >= 0
  {
    SumNonNegative(Filter(ts, OfKind(Expense)), Amount());
    Sum(Filter(ts, OfKind(Expense)), Amount())
  }

  /** `balance`: the signed sum of the ledger, whatever the order of the records. */
  function Balance(ts: seq<Transaction>): (r: int)
    ensures r == Sum(ts, Signed())
  {
    SignedSumSplits(ts);
    TotalIncome(ts) - TotalExpenses(ts)
  }

  /** What one transaction does to the balance: an income adds, an expense takes away. */
  function Signed(): Transaction -> int
  {
    (t: Transaction) => if t.kind == Income then t.amount else -t.amount
  }

  /** Summing the signed amounts record by record gives the incomes less the expenses. */
  lemma {:induction false} SignedSumSplits(ts: seq<Transaction>)
    ensures Sum(ts, Signed()) == TotalIncome(ts) - TotalExpenses(ts)
  {
    if ts != [] {
      SignedSumSplits(ts[1..]);
      SumFilterStep(ts, OfKind(Income), Amount());
      SumFilterStep(ts, OfKind(Expense), Amount());
    }
  }

  /** Recording one more transaction moves the balance by its signed amount. */
  lemma BalanceAfterRecord(ts: seq<Transaction>, t: Transaction)
    ensures Balance(ts + [t]) == Balance(ts) + (if t.kind == Income then t.amount else -t.amount)
  {
    SumAppend(ts, [t], Signed());
  }

  // ---------------------------------------------------------------- the expense chart

  function ExpenseIn(category: string): Transaction -> bool
  {
    (t: Transaction) => t.kind == Expense && t.category == category
  }

  /**
   * The amount spent on one category; incomes never count. With no negative amount it
   * lies between zero and the total of all expenses.
   */
  function SpentOn(ts: seq<Transaction>, category: string): (r: int)
    ensures (forall i :: 0 <= i < |ts| ==> ts[i].amount >= 0) ==> 0 <= r <= TotalExpenses(ts)
  {
    ExpenseShareBounded(ts, category);
    Sum(Filter(ts, ExpenseIn(category)), Amount())
  }

  /** `expenseCategories.map(...)`: one bar per category, in the categories' order. */
  function CategoryTotals(ts: seq<Transaction>, categories: seq<string>): (r: seq<CategoryExpense>)
    ensures |r| == |categories|
    ensures forall i :: 0 <= i < |r| ==> r[i] == CategoryExpense(categories[i], SpentOn(ts, categories[i]))
  {
    if categories == [] then []
    else [CategoryExpense(categories[0], SpentOn(ts, categories[0]))] + CategoryTotals(ts, categories[1..])
  }

  function Positive(): CategoryExpense -> bool
  {
    (e: CategoryExpense) => e.amount > 0
  }

  function EntryAmount(): CategoryExpense -> int
  {
    (e: CategoryExpense) => e.amount
  }

  function Named(category: string): string -> bool
  {
    (c: string) => c == category
  }

  /** The position of a category in `expenseCategories` (its length when it is not listed). */
  function CategoryRank(category: string): nat
  {
    IndexWhere(ExpenseCategories, Named(category))
  }

  /** A bar ranks by its category's position in `expenseCategories`. */
  function BarRank(): CategoryExpense -> int
  {
    (e: CategoryExpense) => CategoryRank(e.category)
  }

  /** Each listed category sits at its own position, as no category is listed twice. */
  lemma CategoryRankOfListed(k: nat)
    requires k < |ExpenseCategories|
    ensures CategoryRank(ExpenseCategories[k]) == k
  {
    ExpenseCategoriesDistinct();
  }

  /** One bar per listed category, in the listed order. */
  lemma BarsInOrder(ts: seq<Transaction>)
    ensures Ascending(CategoryTotals(ts, ExpenseCategories), BarRank())
  {
    var all := CategoryTotals(ts, ExpenseCategories);
    forall k | 0 <= k < |all| ensures BarRank()(all[k]) == k {
      assert all[k].category == ExpenseCategories[k];
      CategoryRankOfListed(k);
    }
  }

  /** The bars kept once the empty ones are dropped: listed, positive, complete and in order. */
  lemma KeptBars(ts: seq<Transaction>)
    ensures var r := Filter(CategoryTotals(ts, ExpenseCategories), Positive());
      && (forall i :: 0 <= i < |r| ==>
            r[i].category in ExpenseCategories && r[i].amount > 0 && r[i].amount == SpentOn(ts, r[i].category))
      && (forall i :: 0 <= i < |ExpenseCategories| && SpentOn(ts, ExpenseCategories[i]) > 0 ==>
            CategoryExpense(ExpenseCategories[i], SpentOn(ts, ExpenseCategories[i])) in r)
      && Ascending(r, BarRank())
  {
    var all := CategoryTotals(ts, ExpenseCategories);
    assert forall e :: e in all ==> e.category in ExpenseCategories && e.amount == SpentOn(ts, e.category);
    BarsInOrder(ts);
    FilterKeepsOrder(all, Positive(), BarRank());
  }

  /**
   * `expensesByCategory`: the bars of the categories with something spent. Each bar is a
   * listed category with its positive spend, every listed category with a positive spend
   * has its bar, and the bars follow the order of `expenseCategories`, so no category
   * has two bars.
   */
  function ExpensesByCategory(ts: seq<Transaction>): (r: seq<CategoryExpense>)
    ensures forall i :: 0 <= i < |r| ==>
      r[i].category in ExpenseCategories && r[i].amount > 0 && r[i].amount == SpentOn(ts, r[i].category)
    ensures forall i :: 0 <= i < |ExpenseCategories| && SpentOn(ts, ExpenseCategories[i]) > 0 ==>
      CategoryExpense(ExpenseCategories[i], SpentOn(ts, ExpenseCategories[i])) in r
    ensures Ascending(r, BarRank())
  {
    KeptBars(ts);
    Filter(CategoryTotals(ts, ExpenseCategories), Positive())
  }

  /** What one transaction adds to the bars of `categories`. */
  function ShareAcross(t: Transaction, categories: seq<string>): int
  {
    if categories == [] then 0
    else (if t.kind == Expense && t.category == categories[0] then t.amount else 0) + ShareAcross(t, categories[1..])
  }

  /** Over categories without repeats, an expense lands on exactly one bar, if any. */
  lemma {:induction false} ShareAcrossOneBar(t: Transaction, categories: seq<string>)
    requires Distinct(categories)
    ensures ShareAcross(t, categories) == if t.kind == Expense && t.category in categories then t.amount else 0
  {
    if categories != [] {
      assert Distinct(categories[1..]);
      ShareAcrossOneBar(t, categories[1..]);
      assert categories[0] !in categories[1..];
      assert t.category in categories <==> t.category == categories[0] || t.category in categories[1..];
    }
  }

  /** The bars of a ledger are those of its tail plus the first record's share. */
  lemma {:induction false} BarsStep(ts: seq<Transaction>, categories: seq<string>)
    requires ts != []
    ensures Sum(CategoryTotals(ts, categories), EntryAmount())
      == ShareAcross(ts[0], categories) + Sum(CategoryTotals(ts[1..], categories), EntryAmount())
  {
    if categories != [] {
      BarsStep(ts, categories[1..]);
      SumFilterStep(ts, ExpenseIn(categories[0]), Amount());
    }
  }

  /** Before zero bars are dropped, the bars add up to every expense in a listed category. */
  lemma {:induction false} BarsCoverExpenses(ts: seq<Transaction>)
    requires forall i :: 0 <= i < |ts| && ts[i].kind == Expense ==> ts[i].category in ExpenseCategories
    ensures Sum(CategoryTotals(ts, ExpenseCategories), EntryAmount()) == TotalExpenses(ts)
  {
    if ts == [] {
      CategoryTotalsOfNothing(ExpenseCategories);
    } else {
      BarsCoverExpenses(ts[1..]);
      BarsStep(ts, ExpenseCategories);
      ExpenseCategoriesDistinct();
      ShareAcrossOneBar(ts[0], ExpenseCategories);
      SumFilterStep(ts, OfKind(Expense), Amount());
    }
  }

  /** An empty ledger draws only empty bars. */
  lemma {:induction false} CategoryTotalsOfNothing(categories: seq<string>)
    ensures Sum(CategoryTotals([], categories), EntryAmount()) == 0
  {
    if categories != [] {
      CategoryTotalsOfNothing(categories[1..]);
    }
  }

  lemma ExpenseCategoriesDistinct()
    ensures Distinct(ExpenseCategories)
  {
  }

  /** Dropping the bars that are not positive loses nothing when no bar is negative. */
  lemma {:induction false} DropEmptyBars(bars: seq<CategoryExpense>)
    requires forall i :: 0 <= i < |bars| ==> bars[i].amount >= 0
    ensures Sum(Filter(bars, Positive()), EntryAmount()) == Sum(bars, EntryAmount())
  {
    if bars != [] {
      DropEmptyBars(bars[1..]);
      SumFilterStep(bars, Positive(), EntryAmount());
    }
  }

  /** The expenses of one category, with no negative amount, add up to at most all expenses. */
  lemma {:induction false} ExpenseShareBounded(ts: seq<Transaction>, category: string)
    ensures (forall i :: 0 <= i < |ts| ==> ts[i].amount >= 0) ==>
      0 <= Sum(Filter(ts, ExpenseIn(category)), Amount()) <= TotalExpenses(ts)
  {
    if ts != [] {
      ExpenseShareBounded(ts[1..], category);
      assert forall i :: 0 <= i < |ts| - 1 ==> ts[1..][i] == ts[i + 1];
      SumFilterStep(ts, ExpenseIn(category), Amount());
      SumFilterStep(ts, OfKind(Expense), Amount());
    }
  }

  /**
   * The chart shows all the money spent: with non-negative amounts in listed categories,
   * its bars add up to `totalExpenses`.
   */
  lemma ChartAddsUpToExpenses(ts: seq<Transaction>)
    requires forall i :: 0 <= i < |ts| ==> ts[i].amount >= 0
    requires forall i :: 0 <= i < |ts| && ts[i].kind == Expense ==> ts[i].category in ExpenseCategories
    ensures Sum(ExpensesByCategory(ts), EntryAmount()) == TotalExpenses(ts)
  {
    var bars := CategoryTotals(ts, ExpenseCategories);
    assert forall i :: 0 <= i < |bars| ==> bars[i].amount >= 0;
    DropEmptyBars(bars);
    BarsCoverExpenses(ts);
  }

  /** The share printed beside a bar: 0 while nothing is spent, else a percentage of the total. */
  function CategoryPercentage(amount: int, total: int): (r: real)
    ensures total <= 0 ==> r == 0.0
    ensures 0 <= amount <= total ==> 0.0 <= r <= 100.0
    ensures 0 < total && amount == total ==> r == 100.0
  {
    if total > 0 then amount as real / total as real * 100.0 else 0.0
  }

  // ---------------------------------------------------------------- goals

  /**
   * A goal's progress as a percentage; `None` for a zero target, where the division
   * yields no finite number. A goal between nothing saved and its target is in [0, 100].
   */
  function GoalProgress(g: FinancialGoal): (r: Option<real>)
    ensures r.None? <==> g.targetAmount == 0
    ensures 0 < g.targetAmount && 0 <= g.currentAmount <= g.targetAmount ==> r.Some? && 0.0 <= r.value <= 100.0
    ensures 0 < g.targetAmount <= g.currentAmount ==> r.Some? && r.value >= 100.0
  {
    if g.targetAmount == 0 then None
    else Some(g.currentAmount as real / g.targetAmount as real * 100.0)
  }

  /**
   * The goal bar: `Math.min(progress, 100)`. For a zero target with something saved the
   * progress is +Infinity, so the bar is full; with nothing or a debt saved it is NaN or
   * -Infinity, no finite value, `None` here.
   */
  function GoalBar(g: FinancialGoal): (r: Option<real>)
    ensures r.None? <==> g.targetAmount == 0 && g.currentAmount <= 0
    ensures r.Some? ==> r.value <= 100.0
    ensures 0 < g.targetAmount && 0 <= g.currentAmount ==> r.Some? && 0.0 <= r.value
    ensures 0 == g.targetAmount < g.currentAmount ==> r == Some(100.0)
    ensures 0 < g.targetAmount <= g.currentAmount ==> r == Some(100.0)
  {
    match GoalProgress(g)
    case None => if g.currentAmount > 0 then Some(100.0) else None
    case Some(p) => Some(if p < 100.0 then p else 100.0)
  }

  function GoalHasId(id: string): FinancialGoal -> bool
  {
    (g: FinancialGoal) => g.id == id
  }

  function Deposit(amount: int): FinancialGoal -> FinancialGoal
  {
    (g: FinancialGoal) => g.(currentAmount := g.currentAmount + amount)
  }

  /**
   * `updateGoalProgress`'s new goal list: the goals with that id gain `amount`; every
   * other goal, and every id, name and target, stays as it was.
   */
  function WithDeposit(goals: seq<FinancialGoal>, id: string, amount: int): (r: seq<FinancialGoal>)
    ensures |r| == |goals|
    ensures forall i :: 0 <= i < |r| ==>
      r[i].id == goals[i].id && r[i].name == goals[i].name && r[i].targetAmount == goals[i].targetAmount
    ensures forall i :: 0 <= i < |r| ==>
      r[i].currentAmount == goals[i].currentAmount + (if goals[i].id == id then amount else 0)
  {
    Update(goals, GoalHasId(id), Deposit(amount))
  }

  /** Two deposits on a goal are one deposit of their sum. */
  lemma DepositsAdd(goals: seq<FinancialGoal>, id: string, a: int, b: int)
    ensures WithDeposit(WithDeposit(goals, id, a), id, b) == WithDeposit(goals, id, a + b)
  {
    var twice, once := WithDeposit(WithDeposit(goals, id, a), id, b), WithDeposit(goals, id, a + b);
    forall i | 0 <= i < |goals| ensures twice[i] == once[i] {
    }
  }

  function TransactionNotId(id: string): Transaction -> bool
  {
    (t: Transaction) => t.id != id
  }

  function GoalNotId(id: string): FinancialGoal -> bool
  {
    (g: FinancialGoal) => g.id != id
  }

  /** Deleting a transaction that is not in the ledger leaves the balance where it was. */
  lemma DeleteMissingTransaction(ts: seq<Transaction>, id: string)
    requires forall i :: 0 <= i < |ts| ==> ts[i].id != id
    ensures Filter(ts, TransactionNotId(id)) == ts
  {
    FilterKeepsAll(ts, TransactionNotId(id));
  }

  // ---------------------------------------------------------------- the component

  class DinheiroFinancas {
    var transactions: seq<Transaction>
    var goals: seq<FinancialGoal>
    var newTransaction: TransactionForm
    var newGoal: GoalForm

    constructor ()
      ensures transactions == [] && goals == []
      ensures newTransaction == EmptyTransactionForm && newGoal == EmptyGoalForm
    {
      transactions := [];
      goals := [];
      newTransaction := EmptyTransactionForm;
      newGoal := EmptyGoalForm;
    }

    /** Typing or choosing in the transaction dialog. */
    method SetNewTransaction(form: TransactionForm)
      modifies this`newTransaction
      ensures newTransaction == form
    {
      newTransaction := form;
    }

    /** Typing in the goal dialog. */
    method SetNewGoal(form: GoalForm)
      modifies this`newGoal
      ensures newGoal == form
    {
      newGoal := form;
    }

    /**
     * `addTransaction`: with an amount and a category typed, the transaction is recorded
     * with the caller's `id`, `date` and parsed `amount`, the balance moves by its signed
     * amount, and the dialog resets to an empty expense; otherwise nothing changes.
     */
    method AddTransaction(id: string, date: string, amount: int)
      modifies this`transactions, this`newTransaction
      ensures var f := old(newTransaction);
        if f.amount != "" && f.category != "" then
          && transactions == old(transactions) + [Transaction(id, f.kind, amount, f.category, f.description, date)]
          && Balance(transactions) == Balance(old(transactions)) + (if f.kind == Income then amount else -amount)
          && newTransaction == EmptyTransactionForm
        else
          transactions == old(transactions) && newTransaction == old(newTransaction)
    {
      if newTransaction.amount != "" && newTransaction.category != "" {
        var t := Transaction(id, newTransaction.kind, amount, newTransaction.category, newTransaction.description, date);
        BalanceAfterRecord(transactions, t);
        transactions := transactions + [t];
        newTransaction := EmptyTransactionForm;
      }
    }

    /**
     * `addGoal`: with a name and a target typed, the goal is created with the parsed
     * target and, when that field was filled in, the parsed current amount (else 0).
     */
    method AddGoal(id: string, target: int, current: int)
      modifies this`goals, this`newGoal
      ensures var f := old(newGoal);
        if f.name != "" && f.targetAmount != "" then
          && goals == old(goals) + [FinancialGoal(id, f.name, target, if f.currentAmount != "" then current else 0)]
          && newGoal == EmptyGoalForm
        else
          goals == old(goals) && newGoal == old(newGoal)
    {
      if newGoal.name != "" && newGoal.targetAmount != "" {
        var saved := if newGoal.currentAmount != "" then current else 0;
        goals := goals + [FinancialGoal(id, newGoal.name, target, saved)];
        newGoal := EmptyGoalForm;
      }
    }

    /** `deleteTransaction`. */
    method DeleteTransaction(id: string)
      modifies this`transactions
      ensures transactions == Filter(old(transactions), TransactionNotId(id))
      ensures forall i :: 0 <= i < |transactions| ==> transactions[i].id != id
    {
      transactions := Filter(transactions, TransactionNotId(id));
    }

    /** `deleteGoal`. */
    method DeleteGoal(id: string)
      modifies this`goals
      ensures goals == Filter(old(goals), GoalNotId(id))
      ensures forall i :: 0 <= i < |goals| ==> goals[i].id != id
    {
      goals := Filter(goals, GoalNotId(id));
    }

    /** `updateGoalProgress`: adds `amount` to the saved amount of the goals with `id`. */
    method UpdateGoalProgress(id: string, amount: int)
      modifies this`goals
      ensures goals == WithDeposit(old(goals), id, amount)
    {
      goals := WithDeposit(goals, id, amount);
    }
  }
}
