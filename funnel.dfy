/**
 * The onboarding funnel of the home page: the flags `Home` keeps in React state, the
 * handlers that change them, and the if-chain that picks the screen to render.
 * The session lookup and the quiz-response insert are remote calls; their outcomes
 * arrive as parameters.
 */
module Funnel {
  import opened Wrappers
  import opened ImprovementPlans

  /** What `supabase.auth.getUser()` gives: a signed-in user, nobody, or a thrown error. */
  datatype SessionLookup = Found(user: string) | NoUser | LookupFailed

  /** The screens `Home` can render. */
  datatype Screen = Loading | QuizScreen | PlanScreen | SalesScreen | AuthScreen | Blocked | MainApp

  /**
   * The render-time selection: each screen is shown exactly when its own condition holds
   * and every screen before it in the chain is off.
   */
  function SelectScreen(loading: bool, showQuiz: bool, planReady: bool, showSales: bool,
                        showAuth: bool, hasPurchased: bool): (s: Screen)
    ensures s == Loading <==> loading
    ensures s == QuizScreen <==> !loading && showQuiz
    ensures s == PlanScreen <==> !loading && !showQuiz && planReady
    ensures s == SalesScreen <==> !loading && !showQuiz && !planReady && showSales
    ensures s == AuthScreen <==> !loading && !showQuiz && !planReady && !showSales && showAuth
    ensures s == Blocked <==> !loading && !showQuiz && !planReady && !showSales && !showAuth && !hasPurchased
    ensures s == MainApp <==> !loading && !showQuiz && !planReady && !showSales && !showAuth && hasPurchased
  {
    if loading then Loading
    else if showQuiz then QuizScreen
    else if planReady then PlanScreen
    else if showSales then SalesScreen
    else if showAuth then AuthScreen
    else if !hasPurchased then Blocked
    else MainApp
  }

  /**
   * Whenever nothing has been bought, some earlier screen is still active, so the
   * blocked screen is never the one selected.
   */
  lemma BlockedNeedsNoEarlierScreen(loading: bool, showQuiz: bool, planReady: bool, showSales: bool,
                                    showAuth: bool, hasPurchased: bool)
    requires !hasPurchased ==> loading || showQuiz || planReady || showSales
    ensures SelectScreen(loading, showQuiz, planReady, showSales, showAuth, hasPurchased) != Blocked
  {
  }

  class Home {
    var user: Option<string>
    var loading: bool
    var showQuiz: bool
    var showPlan: bool
    var showSales: bool
    var showAuth: bool
    var hasPurchased: bool
    var improvementPlan: Option<ImprovementPlan>

    /**
     * What every handler keeps: the plan screen is only ever requested once a plan is
     * held, and a user who has not bought is always on an earlier screen.
     */
    ghost predicate Valid()
      reads this
    {
      && (showPlan ==> improvementPlan.Some?)
      && (!hasPurchased ==> loading || showQuiz || showPlan || showSales)
    }

    /**
     * The screen the component renders now. The plan screen is only rendered with a plan
     * in hand, and in every state the handlers can reach the blocked screen is not the
     * one rendered.
     */
    function CurrentScreen(): (s: Screen)
      reads this
      ensures s == PlanScreen ==> improvementPlan.Some?
      ensures Valid() ==> s != Blocked
    {
      SelectScreen(loading, showQuiz, showPlan && improvementPlan.Some?, showSales, showAuth, hasPurchased)
    }

    /** The first render: loading, nothing shown, nobody signed in, no plan. */
    constructor ()
      ensures Valid()
      ensures loading && user == None && improvementPlan == None
      ensures !showQuiz && !showPlan && !showSales && !showAuth && !hasPurchased
    {
      user := None;
      loading := true;
      showQuiz, showPlan, showSales, showAuth := false, false, false, false;
      hasPurchased := false;
      improvementPlan := None;
    }

    /**
     * `checkUser`: a found user is taken as having bought and lands on the app; no user
     * or a failed lookup opens the quiz; loading ends either way.
     */
    method CheckUser(lookup: SessionLookup)
      requires Valid()
      modifies this
      ensures Valid()
      ensures !loading && improvementPlan == old(improvementPlan)
      ensures lookup.Found? ==> user == Some(lookup.user) && hasPurchased
      ensures lookup.Found? ==> !showQuiz && !showPlan && !showSales && !showAuth
      ensures !lookup.Found? ==> showQuiz && user == old(user) && hasPurchased == old(hasPurchased)
      ensures !lookup.Found? ==> showPlan == old(showPlan) && showSales == old(showSales) && showAuth == old(showAuth)
    {
      if lookup.Found? {
        user := Some(lookup.user);
        hasPurchased := true;
        showQuiz, showPlan, showSales, showAuth := false, false, false, false;
      } else {
        showQuiz := true;
      }
      loading := false;
    }

    /**
     * `handleQuizComplete`: the plan is generated and kept, and the quiz gives way to the
     * plan screen; whether the remote insert of the answers succeeded (`saved`) changes nothing.
     */
    method HandleQuizComplete(q: QuizData, saved: bool)
      requires Valid()
      modifies this
      ensures Valid()
      ensures improvementPlan.Some? && IsPlanFor(q, improvementPlan.value)
      ensures !showQuiz && showPlan
      ensures loading == old(loading) && user == old(user) && hasPurchased == old(hasPurchased)
      ensures showSales == old(showSales) && showAuth == old(showAuth)
    {
      var plan := GenerateImprovementPlan(q);
      improvementPlan := Some(plan);
      showQuiz := false;
      showPlan := true;
    }

    /** `handlePlanContinue`: from the plan to the sales page. */
    method HandlePlanContinue()
      requires Valid()
      modifies this`showPlan, this`showSales
      ensures Valid()
      ensures !showPlan && showSales
    {
      showPlan := false;
      showSales := true;
    }

    /** `handlePurchase`: the purchase is recorded and the sales page gives way to sign-in. */
    method HandlePurchase()
      requires Valid()
      modifies this`hasPurchased, this`showSales, this`showAuth
      ensures Valid()
      ensures hasPurchased && !showSales && showAuth
    {
      hasPurchased := true;
      showSales := false;
      showAuth := true;
    }

    /** `handleAuthSuccess`: sign-in closes and the session is looked up again. */
    method HandleAuthSuccess(lookup: SessionLookup)
      requires Valid()
      modifies this
      ensures Valid()
      ensures !loading && improvementPlan == old(improvementPlan)
      ensures lookup.Found? ==> user == Some(lookup.user) && hasPurchased
      ensures lookup.Found? ==> !showQuiz && !showPlan && !showSales && !showAuth
      ensures !lookup.Found? ==> showQuiz && !showAuth && user == old(user) && hasPurchased == old(hasPurchased)
      ensures !lookup.Found? ==> showPlan == old(showPlan) && showSales == old(showSales)
    {
      showAuth := false;
      CheckUser(lookup);
    }

    /** `handleLogout`: the user and the purchase are forgotten and the quiz reopens; the plan stays. */
    method HandleLogout()
      requires Valid()
      modifies this`user, this`hasPurchased, this`showQuiz
      ensures Valid()
      ensures user == None && !hasPurchased && showQuiz
    {
      user := None;
      hasPurchased := false;
      showQuiz := true;
    }

    /** The "Ver Planos" button of the blocked screen. */
    method ViewPlans()
      requires Valid()
      modifies this`showSales
      ensures Valid()
      ensures showSales
    {
      showSales := true;
    }
  }

  /**
   * A first visit: loading, then the quiz, the plan, the sales page, sign-in and, once
   * the session is found, the app.
   */
  method NewVisitorJourney(q: QuizData, u: string) returns (screens: seq<Screen>)
    ensures screens == [Loading, QuizScreen, PlanScreen, SalesScreen, AuthScreen, MainApp]
  {
    var home := new Home();
    screens := [home.CurrentScreen()];
    home.CheckUser(NoUser);
    screens := screens + [home.CurrentScreen()];
    home.HandleQuizComplete(q, true);
    screens := screens + [home.CurrentScreen()];
    home.HandlePlanContinue();
    screens := screens + [home.CurrentScreen()];
    home.HandlePurchase();
    screens := screens + [home.CurrentScreen()];
    home.HandleAuthSuccess(Found(u));
    screens := screens + [home.CurrentScreen()];
  }

  /** A visitor already signed in goes straight from loading to the app. */
  method ReturningVisitor(u: string) returns (s: Screen)
    ensures s == MainApp
  {
    var home := new Home();
    home.CheckUser(Found(u));
    s := home.CurrentScreen();
  }

  /** A failed session lookup fails open: the quiz is shown. */
  method LookupFailureOpensQuiz() returns (s: Screen)
    ensures s == QuizScreen
  {
    var home := new Home();
    home.CheckUser(LookupFailed);
    s := home.CurrentScreen();
  }

  /** Logging out of the app reopens the quiz but keeps the plan generated earlier. */
  method LogoutKeepsPlan(q: QuizData, u: string) returns (s: Screen, kept: Option<ImprovementPlan>)
    ensures s == QuizScreen
    ensures kept.Some? && IsPlanFor(q, kept.value)
  {
    var home := new Home();
    home.CheckUser(NoUser);
    home.HandleQuizComplete(q, false);
    home.HandlePlanContinue();
    home.HandlePurchase();
    home.HandleAuthSuccess(Found(u));
    home.HandleLogout();
    s := home.CurrentScreen();
    kept := home.improvementPlan;
  }
}
