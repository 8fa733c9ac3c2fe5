# Personal development app — verified model

This project models the client-side logic of a Portuguese-language personal-development web app.

A visitor first answers a six-step quiz about sleep, exercise, stress, study, money and self-care. The app turns the answers into an improvement plan in five areas: corpo, mente, beleza, estudos and financas. The onboarding funnel then walks the visitor through plan, sales page and sign-in, and ends in the main app.

The main app has one tab per life area:
- **Beleza & Autocuidado**: weekly skincare routine, beauty quiz, product list.
- **Estudos & Intelecto**: study timer, reading shelves.
- **Dinheiro & Finanças**: transactions, balance, expense chart, savings goals.
- **Corpo & Saúde**: workouts, meals, body measurements.
- **Agenda & Tarefas**: tasks with categories, daily habits.
- **Tarefas & Hábitos**: database-backed tasks and a weekly habit grid.
- **Mente & Espírito**: guided meditation player, manifestations, dream board, mood log.

Each React component becomes a Dafny `class` whose fields are the component's state. Each event handler becomes a `method`. Its `modifies` clause mostly names only the fields it may change, such as ``this`tasks``; the funnel's `CheckUser`, `HandleQuizComplete` and `HandleAuthSuccess`, which set most of the page's fields at once, take `modifies this`. Each handler's `ensures` gives the complete new state in terms of `old(...)` and of pure specification functions. Pure computations become `function`s, and lemmas prove what the screens rely on. These include:
- the plan lists and the beauty routine are uniquely determined by their descriptions;
- clock displays parse back to the seconds they show;
- the expense chart adds up to total expenses;
- each toggle is undone by a second toggle;
- the three reading shelves partition the library.

Shared building blocks:
- `Wrappers`: `Option`.
- `Text`: JavaScript's `trim`, `split`, `padStart`, `toString` and digit parsing, with their round trips.
- `Records`: list filter, update-by-key, sum and first-index helpers that the tabs share.

Module per source file:
- `src/app/page.tsx`: `ImprovementPlans`, `Funnel`
- `src/app/components/quiz.tsx`: `QuizWizard`
- `src/app/components/beleza-autocuidado.tsx`: `BelezaAutocuidado`
- `src/app/components/estudos-intelecto.tsx`: `EstudosIntelecto`
- `src/app/components/dinheiro-financas.tsx`: `DinheiroFinancas`
- `src/app/components/corpo-saude.tsx`: `CorpoSaude`
- `src/app/components/agenda-tarefas.tsx`: `AgendaTarefas`
- `src/app/components/tarefas-habitos.tsx`: `TarefasHabitos`
- `src/app/components/mente-espirito.tsx`: `MenteEspirito`

Money amounts are integers (cents). Durations and audio positions are whole seconds. Record ids, dates, parsed numbers and the outcomes of database calls are method parameters.

## Model

| member | source | states |
|---|---|---|
| ImprovementPlans.GenerateImprovementPlan | src/app/page.tsx:86-148 | The plan built by pushing recommendations meets the rule of each of the five areas. |
| ImprovementPlans.CorpoSection | src/app/page.tsx:95-104 | Sleep routine first when sleep < 7. Exercise and enjoyable-activity items when exercise is "nunca" or "1-2". Hydration and check-ups always last. |
| ImprovementPlans.MenteSection | src/app/page.tsx:106-115 | Meditation and breathing when stress ≥ 7. Hobbies and gratitude always. Professional support appended when stress ≥ 8. |
| ImprovementPlans.BelezaSection | src/app/page.tsx:117-124 | Two extra items for self-care "nao" or "ocasional", then the three fixed items. |
| ImprovementPlans.EstudosSection | src/app/page.tsx:126-133 | Daily-learning item when study hours < 2, then four fixed items. |
| ImprovementPlans.FinancasSection | src/app/page.tsx:135-145 | Expense tracking and budget items when control is "nao-controlo" or "basico". The three fixed items. The finance-app item appended only for "nao-controlo". |
| ImprovementPlans.CorpoUnique | src/app/page.tsx:95-104 | The corpo description admits exactly one list. |
| ImprovementPlans.MenteUnique | src/app/page.tsx:106-115 | The mente description admits exactly one list. |
| ImprovementPlans.BelezaUnique | src/app/page.tsx:117-124 | The beleza description admits exactly one list. |
| ImprovementPlans.EstudosUnique | src/app/page.tsx:126-133 | The estudos description admits exactly one list. |
| ImprovementPlans.FinancasUnique | src/app/page.tsx:135-145 | The financas description admits exactly one list. |
| ImprovementPlans.PlanIsDeterministic | src/app/page.tsx:86-148 | Two plans for the same answers are equal. |
| ImprovementPlans.ListsReadOnlyTheirOwnAnswers | src/app/page.tsx:86-148 | Each area's list depends only on its own quiz answers. |
| ImprovementPlans.MinimumLengths | src/app/page.tsx:86-148 | List lengths are at least corpo 2, mente 2, beleza 3, estudos 4, financas 3. |
| ImprovementPlans.CorpoContents | src/app/page.tsx:95-104 | Each conditional corpo item is present iff its condition holds. Sleep comes first. The list ends with hydration and check-ups. |
| ImprovementPlans.MenteContents | src/app/page.tsx:106-115 | Meditation and breathing are present iff stress ≥ 7. Professional support is present iff stress ≥ 8, and is then last. Length is 2, 4 or 5. |
| ImprovementPlans.FinancasContents | src/app/page.tsx:135-145 | Lengths are 6 for "nao-controlo", 5 for "basico", otherwise the three fixed items. Finance app and expense tracking are present iff their conditions hold. |
| ImprovementPlans.BelezaEstudosLengths | src/app/page.tsx:117-133 | beleza has 5 items iff self-care is lacking, else 3. estudos has 5 items iff study hours < 2, else 4. |
| ImprovementPlans.WorstCaseAnswers | src/app/page.tsx:86-148 | The most worrying answers yield the full corpo and mente lists and six financas items. |
| ImprovementPlans.BestCaseAnswers | src/app/page.tsx:86-148 | The best answers yield the minimum list lengths. |
| Funnel.SelectScreen | src/app/page.tsx:196-246 | Exactly one screen is chosen, by the render priority loading, quiz, plan, sales, auth, blocked, main (each screen iff its condition). |
| Funnel.BlockedNeedsNoEarlierScreen | src/app/page.tsx:196-246 | Without a purchase, the blocked screen cannot show when an earlier screen's condition holds. |
| Funnel.Home.CurrentScreen | src/app/page.tsx:196-246 | The plan screen renders only with a plan held. In every state the handlers keep (`Valid`), the blocked screen is never the one rendered. |
| Funnel.Home.constructor | src/app/page.tsx:46-63 | Starts loading, with no user, no plan, all screens closed and no purchase. |
| Funnel.Home.CheckUser | src/app/page.tsx:65-84 | A found session sets the user and the purchase flag and closes every overlay. A missing session or a failed lookup opens the quiz. Loading always ends, and the plan is kept. |
| Funnel.Home.HandleQuizComplete | src/app/page.tsx:150-171 | Stores the plan generated from the answers, closes the quiz and opens the plan, whether or not saving succeeds. |
| Funnel.Home.HandlePlanContinue | src/app/page.tsx:173-176 | Closes the plan and opens the sales page. |
| Funnel.Home.HandlePurchase | src/app/page.tsx:178-182 | Marks the purchase, closes sales and opens sign-in. |
| Funnel.Home.HandleAuthSuccess | src/app/page.tsx:184-187 | Closes sign-in and re-checks the session, with the CheckUser outcomes. |
| Funnel.Home.HandleLogout | src/app/page.tsx:189-194 | Clears the user and the purchase and reopens the quiz. |
| Funnel.Home.ViewPlans | src/app/page.tsx:238 | The "Ver Planos" button opens the sales page. |
| Funnel.NewVisitorJourney | src/app/page.tsx:65-194 | A new visitor sees loading, quiz, plan, sales, sign-in and main app, in that order. |
| Funnel.ReturningVisitor | src/app/page.tsx:65-84 | A visitor with a session goes straight to the main app. |
| Funnel.LookupFailureOpensQuiz | src/app/page.tsx:78-83 | A failed session lookup shows the quiz. |
| Funnel.LogoutKeepsPlan | src/app/page.tsx:189-194 | After logout the quiz shows and the earlier plan is still held. |
| QuizWizard.CanProceedAt | src/app/components/quiz.tsx:49-59 | For each step, Next is enabled iff that step's answer is given. It is never enabled outside steps 1..6. |
| QuizWizard.SliderStepsAlwaysProceed | src/app/components/quiz.tsx:103-108 | Within the slider ranges, steps 1, 3 and 4 can always proceed. |
| QuizWizard.Quiz.constructor | src/app/components/quiz.tsx:25-33 | Starts at step 1 with sleep 7, stress 5, study 0 and empty choices. |
| QuizWizard.Quiz.HandleNext | src/app/components/quiz.tsx:37-43 | Advances below step 6. At step 6 it completes with the answers and keeps the step. Completed answers are all given and within the slider ranges. |
| QuizWizard.Quiz.HandleBack | src/app/components/quiz.tsx:45-47 | Goes back one step, never below 1. |
| QuizWizard.Quiz.SetSleepHours | src/app/components/quiz.tsx:105 | Sets only the sleep answer. |
| QuizWizard.Quiz.SetStressLevel | src/app/components/quiz.tsx:161 | Sets only the stress answer. |
| QuizWizard.Quiz.SetStudyHours | src/app/components/quiz.tsx:187 | Sets only the study answer. |
| QuizWizard.Quiz.SetExerciseFrequency | src/app/components/quiz.tsx:128 | Sets only the exercise answer, to one of the radio values. |
| QuizWizard.Quiz.SetFinancialControl | src/app/components/quiz.tsx:210 | Sets only the finance answer, to one of the radio values. |
| QuizWizard.Quiz.SetSelfCareRoutine | src/app/components/quiz.tsx:242 | Sets only the self-care answer, to one of the radio values. |
| QuizWizard.BackThenNext | src/app/components/quiz.tsx:37-47 | Back followed by Next restores the step and the answers. |
| QuizWizard.FullRun | src/app/components/quiz.tsx:37-59 | Answering all six steps and pressing Next six times completes with exactly those answers. |
| BelezaAutocuidado.DayPlan | src/app/components/beleza-autocuidado.tsx:58-81 | Every day opens with the three daily skincare tasks; `DayPlanMeetsDescription` proves the rest of the day description. |
| BelezaAutocuidado.DayPlanCase | src/app/components/beleza-autocuidado.tsx:59-80 | A day list built from the three daily tasks plus the pushes for its conditions meets the day description. |
| BelezaAutocuidado.ExfoliationEveningDay | src/app/components/beleza-autocuidado.tsx:63-80 | Days 0 and 6: the evening routine and the body exfoliation are added. |
| BelezaAutocuidado.WashDay | src/app/components/beleza-autocuidado.tsx:63-80 | Day 1: only the hair wash is added. |
| BelezaAutocuidado.HydrationDay | src/app/components/beleza-autocuidado.tsx:63-80 | Day 3: the hair hydration and the body exfoliation are added. |
| BelezaAutocuidado.WashEveningDay | src/app/components/beleza-autocuidado.tsx:63-80 | Day 4: the evening routine and the hair wash are added. |
| BelezaAutocuidado.EveningDay | src/app/components/beleza-autocuidado.tsx:63-80 | Day 2 (and other even indices): only the evening routine is added. |
| BelezaAutocuidado.PlainDay | src/app/components/beleza-autocuidado.tsx:63-80 | Day 5 (and other odd indices): nothing is added to the daily three. |
| BelezaAutocuidado.DayPlanMeetsDescription | src/app/components/beleza-autocuidado.tsx:54-86 | Every weekday index's list meets the day description: the three daily tasks first, then each conditional task iff its weekday rule holds, in push order. |
| BelezaAutocuidado.PushOrderPairwise | src/app/components/beleza-autocuidado.tsx:59-80 | Push order between neighbours means push order between every pair. |
| BelezaAutocuidado.PushOrderBySet | src/app/components/beleza-autocuidado.tsx:59-80 | Two lists in push order with the same tasks are equal. |
| BelezaAutocuidado.DayPlanForSameTasks | src/app/components/beleza-autocuidado.tsx:59-80 | Two lists that meet the same day description have the same tasks. |
| BelezaAutocuidado.DayPlanForUnique | src/app/components/beleza-autocuidado.tsx:59-80 | The day description admits exactly one list. |
| BelezaAutocuidado.WeeklyRoutineUnique | src/app/components/beleza-autocuidado.tsx:54-86 | The weekly routine is uniquely determined, so it does not depend on the quiz answers. |
| BelezaAutocuidado.DayTasks | src/app/components/beleza-autocuidado.tsx:58-81 | The list pushed for one weekday meets that day's description. |
| BelezaAutocuidado.BuildWeeklyRoutine | src/app/components/beleza-autocuidado.tsx:54-86 | Seven entries, named Segunda..Domingo in order, each meeting its day description. |
| BelezaAutocuidado.WeeklyRoutineDaySizes | src/app/components/beleza-autocuidado.tsx:54-86 | The seven days hold 6, 4, 5, 5, 6, 3 and 6 tasks. |
| BelezaAutocuidado.ToggledGoals | src/app/components/beleza-autocuidado.tsx:98-105 | The goal is present after the toggle iff it was absent before. Other goals are unaffected. A list without duplicates stays without duplicates. |
| BelezaAutocuidado.ToggleGoalTwice | src/app/components/beleza-autocuidado.tsx:98-105 | Toggling an absent goal twice restores the list. |
| BelezaAutocuidado.BelezaAutocuidado.constructor | src/app/components/beleza-autocuidado.tsx:36-45 | Starts with an unanswered quiz, no products, no routine and an empty form. |
| BelezaAutocuidado.BelezaAutocuidado.HandleQuizSubmit | src/app/components/beleza-autocuidado.tsx:47-52 | Completes and builds the weekly routine only when hair type, skin type and at least one goal are given. Otherwise nothing changes. |
| BelezaAutocuidado.BelezaAutocuidado.RetakeQuiz | src/app/components/beleza-autocuidado.tsx:347 | Reopens the quiz. |
| BelezaAutocuidado.BelezaAutocuidado.SetHairType | src/app/components/beleza-autocuidado.tsx:122 | Sets only the hair type. |
| BelezaAutocuidado.BelezaAutocuidado.SetSkinType | src/app/components/beleza-autocuidado.tsx:145 | Sets only the skin type. |
| BelezaAutocuidado.BelezaAutocuidado.ToggleGoal | src/app/components/beleza-autocuidado.tsx:98-105 | Replaces the goals by their toggled list. |
| BelezaAutocuidado.BelezaAutocuidado.SetNewProduct | src/app/components/beleza-autocuidado.tsx:289-307 | Replaces the product form. |
| BelezaAutocuidado.BelezaAutocuidado.AddProduct | src/app/components/beleza-autocuidado.tsx:88-96 | Appends the product and clears the form only when name, category and frequency are all given. Otherwise nothing changes. |
| EstudosIntelecto.SplitClock | src/app/components/estudos-intelecto.tsx:49-54 | Splitting "h:m:s" at colons gives back the three groups. |
| EstudosIntelecto.ClockArithmetic | src/app/components/estudos-intelecto.tsx:49-54 | Hours, minutes and seconds recombine to the original count. |
| EstudosIntelecto.ParseClockGroups | src/app/components/estudos-intelecto.tsx:49-54 | Parsing three padded groups gives their clock value. |
| EstudosIntelecto.FormatTime | src/app/components/estudos-intelecto.tsx:49-54 | Below 100 hours the display is exactly 8 characters, with colons at positions 2 and 5. |
| EstudosIntelecto.FormatTimeRoundTrip | src/app/components/estudos-intelecto.tsx:49-54 | The HH:MM:SS display reads back as the seconds it shows. |
| EstudosIntelecto.FormatTimeFields | src/app/components/estudos-intelecto.tsx:49-54 | The display splits at ":" into exactly three digit fields. The first is the whole hours, at least two digits wide. The second and third are the leftover minutes and seconds, each below 60 and exactly two digits wide. |
| EstudosIntelecto.ProgressValue | src/app/components/estudos-intelecto.tsx:98-100 | The capped weekly progress lies in 0..100, and reaches 100 iff the 20-hour goal is met. |
| EstudosIntelecto.TotalStudyTime | src/app/components/estudos-intelecto.tsx:98 | The total of sessions with no negative duration is never negative. |
| EstudosIntelecto.BooksByStatus | src/app/components/estudos-intelecto.tsx:96 | A shelf holds only library books with that status, and every library book with that status is on it. |
| EstudosIntelecto.ShelvesPartitionLibrary | src/app/components/estudos-intelecto.tsx:96 | The three status shelves together hold every book exactly once by count. |
| EstudosIntelecto.WithoutBook | src/app/components/estudos-intelecto.tsx:90 | Removes exactly the books with the id and keeps every other book. |
| EstudosIntelecto.WithBookStatus | src/app/components/estudos-intelecto.tsx:92-94 | Changing a status keeps the length, order, ids, titles and authors. Books with that id get the new status; every other book keeps its own. |
| EstudosIntelecto.MoveBookBack | src/app/components/estudos-intelecto.tsx:92-94 | Marking a book read and then moving it back to its old status restores the library. |
| EstudosIntelecto.EstudosIntelecto.constructor | src/app/components/estudos-intelecto.tsx:28-37 | Starts with no books or sessions and a stopped timer at 0. |
| EstudosIntelecto.EstudosIntelecto.Tick | src/app/components/estudos-intelecto.tsx:39-47 | Adds one second exactly while running. |
| EstudosIntelecto.EstudosIntelecto.SetCurrentSubject | src/app/components/estudos-intelecto.tsx:126-132 | Sets the subject while the timer is stopped. |
| EstudosIntelecto.EstudosIntelecto.StartTimer | src/app/components/estudos-intelecto.tsx:56-60 | Starts only when the trimmed subject is non-empty. |
| EstudosIntelecto.EstudosIntelecto.PauseTimer | src/app/components/estudos-intelecto.tsx:62-64 | Stops the timer and keeps the count. |
| EstudosIntelecto.EstudosIntelecto.StopTimer | src/app/components/estudos-intelecto.tsx:66-78 | Records a session only for a positive count and a subject. It resets timer and subject. The total study time grows by exactly the recorded seconds. |
| EstudosIntelecto.EstudosIntelecto.SetNewBook | src/app/components/estudos-intelecto.tsx:235-244 | Sets the form's title and author. The form carries no status. |
| EstudosIntelecto.EstudosIntelecto.AddBook | src/app/components/estudos-intelecto.tsx:80-88 | Only when title and author are given: appends a book with the form's title and author and status "quero-ler", then clears the form. Otherwise nothing changes. |
| EstudosIntelecto.EstudosIntelecto.DeleteBook | src/app/components/estudos-intelecto.tsx:90 | Removes the books with that id. |
| EstudosIntelecto.EstudosIntelecto.UpdateBookStatus | src/app/components/estudos-intelecto.tsx:92-94 | Moves the books with that id to the new status. |
| EstudosIntelecto.StudyRun | src/app/components/estudos-intelecto.tsx:39-78 | Start, n ticks and stop record one session of n seconds. The running clock reads back as n. |
| EstudosIntelecto.ShelveNewBook | src/app/components/estudos-intelecto.tsx:80-96 | A book added through the dialog is on the "quero-ler" shelf and on neither of the other two. |
| DinheiroFinancas.TotalIncome | src/app/components/dinheiro-financas.tsx:103-105 | With no negative amount, total income is non-negative. |
| DinheiroFinancas.TotalExpenses | src/app/components/dinheiro-financas.tsx:107-109 | With no negative amount, total expenses are non-negative. |
| DinheiroFinancas.Balance | src/app/components/dinheiro-financas.tsx:103-111 | The balance is the signed sum of the ledger: incomes count up and expenses down, record by record. |
| DinheiroFinancas.SignedSumSplits | src/app/components/dinheiro-financas.tsx:103-111 | The signed sum of the ledger equals total income minus total expenses. |
| DinheiroFinancas.BalanceAfterRecord | src/app/components/dinheiro-financas.tsx:103-111 | Recording an income raises the balance by its amount. Recording an expense lowers it. |
| DinheiroFinancas.CategoryTotals | src/app/components/dinheiro-financas.tsx:113-117 | One entry per category, in order, holding the sum of expenses in that category. |
| DinheiroFinancas.SpentOn | src/app/components/dinheiro-financas.tsx:115-117 | With no negative amount, a category's spending lies between 0 and total expenses. |
| DinheiroFinancas.CategoryRankOfListed | src/app/components/dinheiro-financas.tsx:31-40 | Each listed category's position is its own index, as no category is listed twice. |
| DinheiroFinancas.BarsInOrder | src/app/components/dinheiro-financas.tsx:113-117 | The bars before filtering are one per listed category, in the order of `expenseCategories`. |
| DinheiroFinancas.ExpensesByCategory | src/app/components/dinheiro-financas.tsx:113-118 | Every bar is a listed category with its positive expense sum. Every category with a positive sum gets a bar. The bars follow the order of `expenseCategories`, so no category has two bars. |
| DinheiroFinancas.ShareAcrossOneBar | src/app/components/dinheiro-financas.tsx:113-117 | Across distinct categories, one transaction counts once if it is an expense in a listed category, else never. |
| DinheiroFinancas.BarsStep | src/app/components/dinheiro-financas.tsx:113-117 | Adding a transaction adds its share to the bar total. |
| DinheiroFinancas.BarsCoverExpenses | src/app/components/dinheiro-financas.tsx:113-117 | When every expense has a listed category, the bars add up to total expenses. |
| DinheiroFinancas.CategoryTotalsOfNothing | src/app/components/dinheiro-financas.tsx:113-117 | With no transactions all bars are zero. |
| DinheiroFinancas.ExpenseCategoriesDistinct | src/app/components/dinheiro-financas.tsx:31-40 | The eight expense categories are distinct. |
| DinheiroFinancas.DropEmptyBars | src/app/components/dinheiro-financas.tsx:118 | Dropping non-positive bars does not change a total of non-negative bars. |
| DinheiroFinancas.ExpenseShareBounded | src/app/components/dinheiro-financas.tsx:107-117 | With no negative amount, the expenses of one category add up to between 0 and all expenses. |
| DinheiroFinancas.ChartAddsUpToExpenses | src/app/components/dinheiro-financas.tsx:107-118 | The chart's bars add up to total expenses. |
| DinheiroFinancas.CategoryPercentage | src/app/components/dinheiro-financas.tsx:325 | 0 when there are no expenses. Between 0 and 100 for a part of the total. 100 for the whole. |
| DinheiroFinancas.GoalProgress | src/app/components/dinheiro-financas.tsx:409 | Undefined exactly for a zero target. Within 0..100 up to the target, and at least 100 beyond it. |
| DinheiroFinancas.GoalBar | src/app/components/dinheiro-financas.tsx:409-428 | The goal bar never exceeds 100. It is non-negative for a positive target and a non-negative saved amount. It is full once the target is reached, and also for a zero target with something saved (`Math.min(Infinity, 100)`). It has no value only for a zero target with nothing or less saved. |
| DinheiroFinancas.WithDeposit | src/app/components/dinheiro-financas.tsx:95-101 | Goals with that id gain the amount. Every other goal's amount, and every id, name and target, stays. The length stays. |
| DinheiroFinancas.DepositsAdd | src/app/components/dinheiro-financas.tsx:95-101 | Two deposits equal one of their sum. |
| DinheiroFinancas.DeleteMissingTransaction | src/app/components/dinheiro-financas.tsx:92 | Deleting an id that no transaction has changes nothing. |
| DinheiroFinancas.DinheiroFinancas.constructor | src/app/components/dinheiro-financas.tsx:42-55 | Starts with no records and empty forms, with the type "expense". |
| DinheiroFinancas.DinheiroFinancas.SetNewTransaction | src/app/components/dinheiro-financas.tsx:202-255 | Replaces the transaction form. |
| DinheiroFinancas.DinheiroFinancas.SetNewGoal | src/app/components/dinheiro-financas.tsx:374-396 | Replaces the goal form. |
| DinheiroFinancas.DinheiroFinancas.AddTransaction | src/app/components/dinheiro-financas.tsx:57-74 | Appends one record and resets the form only when amount and category are given. The balance then moves by the signed amount. |
| DinheiroFinancas.DinheiroFinancas.AddGoal | src/app/components/dinheiro-financas.tsx:76-90 | Appends a goal only when name and target are given. The current amount defaults to 0. |
| DinheiroFinancas.DinheiroFinancas.DeleteTransaction | src/app/components/dinheiro-financas.tsx:92 | Removes exactly the transactions with that id, keeping the rest in order. |
| DinheiroFinancas.DinheiroFinancas.DeleteGoal | src/app/components/dinheiro-financas.tsx:93 | Removes exactly the goals with that id, keeping the rest in order. |
| DinheiroFinancas.DinheiroFinancas.UpdateGoalProgress | src/app/components/dinheiro-financas.tsx:95-101 | Adds the amount to the matching goals' current amount only. |
| CorpoSaude.ExerciseList | src/app/components/corpo-saude.tsx:49 | One exercise per comma-separated piece: commas + 1 entries, each the trimmed piece, with no comma and no surrounding white space. |
| CorpoSaude.TrimEach | src/app/components/corpo-saude.tsx:49 | Each piece is trimmed, and a character absent from every piece stays absent. |
| CorpoSaude.ExerciseListRoundTrip | src/app/components/corpo-saude.tsx:49 | Joining trimmed, comma-free names with commas and splitting again gives them back. |
| CorpoSaude.CalorieProgress | src/app/components/corpo-saude.tsx:86-87 | The percentage of the 2000-calorie goal reaches 100 iff the goal is met. |
| CorpoSaude.TotalCalories | src/app/components/corpo-saude.tsx:85 | With no negative meal, the day's calories are non-negative. |
| CorpoSaude.TotalAfterMeal | src/app/components/corpo-saude.tsx:85 | Adding a meal raises the total by its calories. |
| CorpoSaude.DeleteMealLowersTotal | src/app/components/corpo-saude.tsx:83-85 | Deleting meals never raises a non-negative total. |
| CorpoSaude.OptionalMeasure | src/app/components/corpo-saude.tsx:74-76 | A measure is absent iff its input is empty. |
| CorpoSaude.CorpoSaude.constructor | src/app/components/corpo-saude.tsx:36-42 | Starts with no records and empty forms. |
| CorpoSaude.CorpoSaude.SetNewWorkout | src/app/components/corpo-saude.tsx:40 | Replaces the workout form. |
| CorpoSaude.CorpoSaude.SetNewMeal | src/app/components/corpo-saude.tsx:41 | Replaces the meal form. |
| CorpoSaude.CorpoSaude.SetNewProgress | src/app/components/corpo-saude.tsx:42 | Replaces the measurements form. |
| CorpoSaude.CorpoSaude.AddWorkout | src/app/components/corpo-saude.tsx:44-54 | Appends a workout with the split exercise list only when name and exercises are given. |
| CorpoSaude.CorpoSaude.AddMeal | src/app/components/corpo-saude.tsx:56-66 | Appends a meal only when name, time and calories are given. The total grows by its calories. |
| CorpoSaude.CorpoSaude.AddProgress | src/app/components/corpo-saude.tsx:68-80 | Appends an entry only when the weight is given. Optional measures are present iff filled in. |
| CorpoSaude.CorpoSaude.DeleteWorkout | src/app/components/corpo-saude.tsx:82 | Removes exactly the workouts with that id. |
| CorpoSaude.CorpoSaude.DeleteMeal | src/app/components/corpo-saude.tsx:83 | Removes exactly the meals with that id. |
| AgendaTarefas.DefaultHabitList | src/app/components/agenda-tarefas.tsx:39-56 | Six default habits, in order, none completed. Each id is its index written in decimal, so the ids are "0" to "5" and all differ. |
| AgendaTarefas.TaskCategoriesWellFormed | src/app/components/agenda-tarefas.tsx:30-37 | Category values are distinct, and each has a color and a caption. |
| AgendaTarefas.FindCategory | src/app/components/agenda-tarefas.tsx:110-118 | The category with that value when one has it, none otherwise. |
| AgendaTarefas.CategoryColor | src/app/components/agenda-tarefas.tsx:110-113 | The listed color for a known category, "gray" otherwise. |
| AgendaTarefas.CategoryLabel | src/app/components/agenda-tarefas.tsx:115-118 | The listed caption for a known category, "Geral" otherwise. |
| AgendaTarefas.CompletedTasks | src/app/components/agenda-tarefas.tsx:105-106 | Completed tasks never outnumber tasks. |
| AgendaTarefas.CompletedHabits | src/app/components/agenda-tarefas.tsx:107-108 | Completed habits never outnumber habits. |
| AgendaTarefas.ToggledTasks | src/app/components/agenda-tarefas.tsx:78-82 | Tasks with that id flip their completion. Every other task, every other field and the length stay. |
| AgendaTarefas.ToggledHabits | src/app/components/agenda-tarefas.tsx:86-90 | Habits with that id flip their completion. Every other habit, every other field and the length stay. |
| AgendaTarefas.ToggleMovesDoneCount | src/app/components/agenda-tarefas.tsx:78-82 | Toggling an id moves exactly its tasks between done and open. |
| AgendaTarefas.ToggleTaskTwice | src/app/components/agenda-tarefas.tsx:78-82 | Toggling a task twice restores the list. |
| AgendaTarefas.ToggleHabitTwice | src/app/components/agenda-tarefas.tsx:86-90 | Toggling a habit twice restores the list. |
| AgendaTarefas.AgendaTarefas.constructor | src/app/components/agenda-tarefas.tsx:48-62 | Starts with no tasks, the default habits and a "geral" form. |
| AgendaTarefas.AgendaTarefas.SetNewTask | src/app/components/agenda-tarefas.tsx:237-254 | Replaces the task form. |
| AgendaTarefas.AgendaTarefas.SetNewHabit | src/app/components/agenda-tarefas.tsx:198 | Replaces the habit input. |
| AgendaTarefas.AgendaTarefas.AddTask | src/app/components/agenda-tarefas.tsx:64-76 | Appends an open task and resets the form to "geral" only when the title is given. The done count is unchanged. |
| AgendaTarefas.AgendaTarefas.ToggleTask | src/app/components/agenda-tarefas.tsx:78-82 | Flips completion of the tasks with that id only. |
| AgendaTarefas.AgendaTarefas.DeleteTask | src/app/components/agenda-tarefas.tsx:84 | Removes exactly the tasks with that id. |
| AgendaTarefas.AgendaTarefas.ToggleHabit | src/app/components/agenda-tarefas.tsx:86-90 | Flips completion of the habits with that id only. |
| AgendaTarefas.AgendaTarefas.AddHabit | src/app/components/agenda-tarefas.tsx:92-101 | Appends the untrimmed name only when its trimmed form is non-empty. |
| AgendaTarefas.AgendaTarefas.DeleteHabit | src/app/components/agenda-tarefas.tsx:103 | Removes exactly the habits with that id. |
| TarefasHabitos.DiasOrDefault | src/app/components/tarefas-habitos.tsx:84-88 | Missing days become seven unchecked days. Stored days are kept. |
| TarefasHabitos.HabitsFromRows | src/app/components/tarefas-habitos.tsx:74-90 | One habit per loaded row, with its days defaulted. |
| TarefasHabitos.DaysDone | src/app/components/tarefas-habitos.tsx:326-339 | No more days are checked than the week has. |
| TarefasHabitos.FlipDay | src/app/components/tarefas-habitos.tsx:164-165 | The chosen day flips. Every other day and the week's length stay. |
| TarefasHabitos.FlipDayMovesCount | src/app/components/tarefas-habitos.tsx:159-176 | Flipping one day changes the checked count by exactly one, in the right direction. |
| TarefasHabitos.FlipDayTwice | src/app/components/tarefas-habitos.tsx:159-176 | Flipping a day twice restores the week. |
| TarefasHabitos.PercentageBounds | src/app/components/tarefas-habitos.tsx:192 | A done-over-total ratio lies in 0..100, and is 100 iff all are done. |
| TarefasHabitos.TarefasConcluidas | src/app/components/tarefas-habitos.tsx:191 | Never more than the tasks. Equal to their number iff every task is done. |
| TarefasHabitos.ProgressoTarefas | src/app/components/tarefas-habitos.tsx:191-192 | 0 with no tasks. Always within 0..100. 100 iff there are tasks and all are done. |
| TarefasHabitos.ToggleTarefaTwice | src/app/components/tarefas-habitos.tsx:111-125 | Toggling a task twice restores the list. |
| TarefasHabitos.TarefasHabitos.constructor | src/app/components/tarefas-habitos.tsx:22-30 | Starts loading, with no user and empty lists. |
| TarefasHabitos.TarefasHabitos.LoadTarefas | src/app/components/tarefas-habitos.tsx:56-72 | Replaces the tasks only when a client exists and the query returns data. |
| TarefasHabitos.TarefasHabitos.LoadHabitos | src/app/components/tarefas-habitos.tsx:74-90 | Replaces the habits, with days defaulted, only when a client exists and the query returns data. |
| TarefasHabitos.TarefasHabitos.LoadUserData | src/app/components/tarefas-habitos.tsx:36-54 | For a signed-in user with a client, stores the user and loads both lists. Loading always ends. |
| TarefasHabitos.TarefasHabitos.SetNovaTarefa | src/app/components/tarefas-habitos.tsx:236 | Replaces the task input. |
| TarefasHabitos.TarefasHabitos.SetNovoHabito | src/app/components/tarefas-habitos.tsx:300 | Replaces the habit input. |
| TarefasHabitos.TarefasHabitos.AdicionarTarefa | src/app/components/tarefas-habitos.tsx:92-109 | Prepends an open task only for non-blank text, a user, a client and a successful insert. Otherwise nothing changes. |
| TarefasHabitos.TarefasHabitos.ToggleTarefa | src/app/components/tarefas-habitos.tsx:111-125 | Flips the task only when it exists and the update succeeds. |
| TarefasHabitos.TarefasHabitos.RemoverTarefa | src/app/components/tarefas-habitos.tsx:127-138 | Removes the id locally only when the delete succeeds. |
| TarefasHabitos.TarefasHabitos.AdicionarHabito | src/app/components/tarefas-habitos.tsx:140-157 | Prepends a habit with seven unchecked days under the same conditions as tasks. |
| TarefasHabitos.TarefasHabitos.ToggleDiaHabito | src/app/components/tarefas-habitos.tsx:159-176 | Flips exactly the chosen day of the found habit, only on success. |
| TarefasHabitos.TarefasHabitos.RemoverHabito | src/app/components/tarefas-habitos.tsx:178-189 | Removes the id locally only when the delete succeeds. |
| TarefasHabitos.TickFirstDay | src/app/components/tarefas-habitos.tsx:140-176 | A new habit with one day ticked has exactly one checked day. |
| MenteEspirito.MeditationIdsDistinct | src/app/components/mente-espirito.tsx:43-84 | The five catalogue meditations have distinct ids. |
| MenteEspirito.SplitMinutes | src/app/components/mente-espirito.tsx:209-213 | Splitting "m:s" at the colon gives back both groups. |
| MenteEspirito.ParseMinuteGroups | src/app/components/mente-espirito.tsx:209-213 | Parsing minutes and padded seconds gives their clock value. |
| MenteEspirito.FormatClock | src/app/components/mente-espirito.tsx:209-213 | The display is exactly three characters longer than the unpadded minutes: the ':' and two digits of seconds. |
| MenteEspirito.FormatClockRoundTrip | src/app/components/mente-espirito.tsx:209-213 | The M:SS display reads back as the seconds it shows. |
| MenteEspirito.FormatClockFields | src/app/components/mente-espirito.tsx:209-213 | The display splits at ":" into exactly two fields. The first is the whole minutes, written unpadded. The second is the leftover seconds, below 60 and exactly two digits wide. |
| MenteEspirito.MenteEspirito.constructor | src/app/components/mente-espirito.tsx:95-108 | Starts with no entries, empty forms and no meditation loaded. |
| MenteEspirito.MenteEspirito.StartMeditation | src/app/components/mente-espirito.tsx:176-196 | On the current meditation it flips play and pause and keeps the position. Any other meditation becomes current, playing from 0. |
| MenteEspirito.MenteEspirito.TogglePlayPause | src/app/components/mente-espirito.tsx:198-207 | Flips playing only when the audio element exists. |
| MenteEspirito.MenteEspirito.HandleEnded | src/app/components/mente-espirito.tsx:171-174 | Stops playback and rewinds to 0. |
| MenteEspirito.MenteEspirito.HandleTimeUpdate | src/app/components/mente-espirito.tsx:159-163 | Copies the audio position when the element exists. |
| MenteEspirito.MenteEspirito.HandleLoadedMetadata | src/app/components/mente-espirito.tsx:165-169 | Copies the audio length when the element exists. |
| MenteEspirito.MenteEspirito.SetNewManifestation | src/app/components/mente-espirito.tsx:407 | Replaces the manifestation input. |
| MenteEspirito.MenteEspirito.SetNewDream | src/app/components/mente-espirito.tsx:469-478 | Replaces the dream form. |
| MenteEspirito.MenteEspirito.SetNewMood | src/app/components/mente-espirito.tsx:533-558 | Replaces the mood form. |
| MenteEspirito.MenteEspirito.AddManifestation | src/app/components/mente-espirito.tsx:215-224 | Appends the untrimmed text and clears the input only when the trimmed text is non-empty. |
| MenteEspirito.MenteEspirito.AddDream | src/app/components/mente-espirito.tsx:226-235 | Appends a dream only when title and description are given. |
| MenteEspirito.MenteEspirito.AddMoodEntry | src/app/components/mente-espirito.tsx:237-247 | Appends an entry only when a mood is chosen, then resets the mood to none. |
| MenteEspirito.PressCardThrice | src/app/components/mente-espirito.tsx:176-196 | Pressing the same card plays, pauses and resumes it without losing the position. |
| Text.Trim | src/app/components/agenda-tarefas.tsx:93 | The result is never longer and has no white space at either end. |
| Text.LeadingWhite | src/app/components/agenda-tarefas.tsx:93 | Counts exactly the white characters at the front of the text. |
| Text.TrimBlank | src/app/components/agenda-tarefas.tsx:93 | Trim gives the empty string iff the text is all white space, which is what `if (s.trim())` tests. |
| Text.TrimCutsOnlyWhite | src/app/components/corpo-saude.tsx:49 | Trim keeps the contiguous part after the leading white space and cuts only white space. |
| Text.TrimKeepsAbsent | src/app/components/corpo-saude.tsx:49 | Trimming never introduces a character that the text did not hold. |
| Text.TrimmedIsFixed | src/app/components/corpo-saude.tsx:49 | Text without white space at its ends is unchanged by trim. |
| Text.TrimIdempotent | src/app/components/corpo-saude.tsx:49 | Trimming twice is trimming once. |
| Text.Split | src/app/components/corpo-saude.tsx:49 | Separators + 1 pieces, none holding the separator, which join back to the text. |
| Text.SplitJoin | src/app/components/corpo-saude.tsx:49 | Splitting the join of separator-free pieces gives them back. |
| Text.SplitNoSeparator | src/app/components/corpo-saude.tsx:49 | Text without the separator splits into itself alone. |
| Text.SplitAfterPiece | src/app/components/corpo-saude.tsx:49 | A leading separator-free piece splits off first. |
| Text.DigitChar | src/app/components/estudos-intelecto.tsx:53 | A digit's character reads back as that digit. |
| Text.Decimal | src/app/components/mente-espirito.tsx:212 | Decimal text is non-empty digits without a leading zero, one digit iff below 10. |
| Text.DecimalRoundTrip | src/app/components/mente-espirito.tsx:212 | Decimal text parses back to the number. |
| Text.Repeat | src/app/components/estudos-intelecto.tsx:53 | count copies of the fill character. |
| Text.PadStart | src/app/components/estudos-intelecto.tsx:53 | The text is right-aligned to the width with fill characters, and never shortened. |
| Text.LeadingZeros | src/app/components/estudos-intelecto.tsx:53 | Leading zeros do not change the parsed value. |
| Text.AllZeros | src/app/components/estudos-intelecto.tsx:53 | A run of zeros parses as 0. |
| Text.DecimalLength | src/app/components/estudos-intelecto.tsx:53 | A number is below 100 iff its decimal text has at most two digits. |
| Text.TwoDigits | src/app/components/estudos-intelecto.tsx:53 | Zero-padding gives digits only, exactly two below 100. |
| Text.TwoDigitsRoundTrip | src/app/components/estudos-intelecto.tsx:53 | Zero-padded text parses back to the number. |
| Records.Filter | src/app/components/estudos-intelecto.tsx:90 | Keeps exactly the matching elements, and never lengthens the list. |
| Records.FilterAppend | src/app/components/dinheiro-financas.tsx:103-109 | Filtering distributes over concatenation. |
| Records.FilterKeepsOrder | src/app/components/dinheiro-financas.tsx:118 | Filtering a list ranked in strictly increasing order leaves it strictly increasing. |
| Records.FilterKeepsAll | src/app/components/dinheiro-financas.tsx:92 | A filter that every element passes changes nothing. |
| Records.FilterKeepsAllIff | src/app/components/agenda-tarefas.tsx:84 | The filter keeps the length iff every element passes. |
| Records.FilterComplement | src/app/components/estudos-intelecto.tsx:96 | A filter and its complement split the list by length. |
| Records.FilterDistinct | src/app/components/beleza-autocuidado.tsx:98-105 | Filtering keeps a list free of duplicates. |
| Records.Update | src/app/components/agenda-tarefas.tsx:78-82 | Changes exactly the matching elements, in place, keeping the length. |
| Records.UpdateTwice | src/app/components/agenda-tarefas.tsx:78-82 | An update that is its own inverse, applied twice, restores the list. |
| Records.UpdateMissing | src/app/components/tarefas-habitos.tsx:111-125 | An update with no match changes nothing. |
| Records.IndexWhere | src/app/components/tarefas-habitos.tsx:114 | The first matching position, or the length when none matches. |
| Records.SumAppend | src/app/components/estudos-intelecto.tsx:98 | A sum over a concatenation is the sum of the parts. |
| Records.SumFilterStep | src/app/components/dinheiro-financas.tsx:103-109 | The sum of a filtered list, one element at a time. |
| Records.SumNonNegative | src/app/components/corpo-saude.tsx:85 | A sum whose every term is non-negative is non-negative. |

## Left out

- Persistence is not modelled: `localStorage` reads and writes with JSON (mente-espirito) and every Supabase query and insert. A database call is replaced by its outcome, passed as a parameter (`ok`, an optional inserted id, optional rows, a `SessionLookup`). The `getUser` exception path in `checkUser` is folded into a failed lookup. The tasks screen builds the new local row from the row the insert returns (`data.texto`, `data.concluida`, `data.dias`). The model assumes that row echoes the insert: the typed text, `concluida` false and seven open days.
- The HTML audio element is not modelled. Its presence is the `audioMounted` parameter, and `play()`/`pause()`, `src` changes and the metadata wiring effect are left out. Positions and lengths are whole seconds, not floats.
- `Date.now()` ids and `toLocaleDateString()` dates are method parameters.
- `parseFloat`/`parseInt` results are parameters, in cents for money. The guards still test the raw text fields, as the source does. NaN is not modelled.
- `setInterval` is replaced by the explicit `Tick` method.
- `Math.random` quote and affirmation picks are left out.
- Floating-point rounding, `toFixed` and the display formatting of amounts and percentages are left out. Percentages are exact reals.
- Rendering is not modelled: JSX, styling, dialogs and tabs, the meditation progress bar (currentTime/duration, which divides by 0 before metadata loads) and the mood icon lookup.
- Some modules are not part of this model: the improvement-plan, sales-page and profile components, the `Auth` component and the Supabase client setup. They render or hold constants only.
- The `newSession` form state of the study tab is never read by its handlers, so it is not modelled.
- Funnel.SelectScreen: models the render if-chain; the plan screen requires both `showPlan` and a stored plan.
- EstudosIntelecto.ProgressValue: models the capped bar value `min(total/goal*100, 100)` as an exact real, not the float the screen computes.
- DinheiroFinancas.ChartAddsUpToExpenses: needs every expense to be non-negative and in a listed category. The chart drops categories whose sum is not positive, so negative amounts or unlisted categories make the bars and the total differ.
- CorpoSaude.CalorieProgress: not capped at 100, as in the source. Only the bar width is clamped by the widget.
- DinheiroFinancas.GoalProgress: returns `None` for a zero target. The source divides by zero there and gets a non-finite number.
- DinheiroFinancas.GoalBar: returns `None` for a zero target with nothing or a negative amount saved. The source's bar value there is NaN or -Infinity, which the model does not represent. A zero target with a positive amount gives the full bar, as in the source.
- TarefasHabitos.TarefasHabitos.ToggleDiaHabito: requires the chosen day to lie inside the found habit's week. The grid renders one button per stored day, so the buttons only offer indices 0 to `habito.dias.length - 1`, which is what the requires allows. A call from elsewhere with a larger index would make the source write past the end of the array.
- QuizWizard.Quiz.HandleNext: requires `CanProceedAt(step, quizData)`, because the Next button is disabled otherwise.
- Funnel.Home.HandleAuthSuccess: modelled as one step. The source calls `checkUser()` without awaiting it. Sign-in therefore closes first, and the main app renders with `hasPurchased` already true until the lookup's outcome arrives, even when that outcome then reopens the quiz.
- EstudosIntelecto.EstudosIntelecto.SetCurrentSubject: requires a stopped timer, because the input is disabled while running.

## Behaviour worth knowing

- Logout does not discard the stored improvement plan: `HandleLogout` resets only the user, the purchase flag and the quiz screen (`Funnel.LogoutKeepsPlan`).
- `checkUser` sets `hasPurchased` for every signed-in user, so the "blocked" screen can never show (`Funnel.Home.CurrentScreen`).
- The stress ≥ 8 item and the "nao-controlo" finance item are appended after the fixed items, not placed next to the other conditional items.
- The HH:MM:SS study clock pads hours to at least two digits but does not limit them, so 100 hours or more shows three or more hour digits (`EstudosIntelecto.FormatTime`).
