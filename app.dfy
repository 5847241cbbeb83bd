/**
 * The application shell: which screen is shown (loading, landing page or the guarded
 * application), and inside the application which view is open and which order is being edited.
 */
module App {
  import opened Wrappers
  import opened Supabase

  datatype ViewState = DashboardView | ListView | FormView

  /** The navigation state: the open view and the id of the order being edited, if any. */
  datatype Nav = Nav(view: ViewState, editingId: Option<int>)

  const InitialNav := Nav(DashboardView, None)

  /** The handlers: the sidebar's `handleNavigate`, the list's edit and create buttons, and the form's save and close. */
  datatype NavEvent = Navigate(target: ViewState) | EditOrder(id: int) | CreateOrder | Saved | CloseForm

  /** An order is only being edited while the form is open. */
  predicate EditingOnlyInForm(n: Nav) {
    n.editingId.Some? ==> n.view == FormView
  }

  /**
   * The handlers as the source writes them. Every handler except the form's close keeps
   * `EditingOnlyInForm`; the close opens the list but leaves `editingId` set.
   */
  function StepAsWritten(n: Nav, e: NavEvent): (r: Nav)
    ensures !e.CloseForm? && EditingOnlyInForm(n) ==> EditingOnlyInForm(r)
    ensures e.CloseForm? ==> r == Nav(ListView, n.editingId)
  {
    match e
    case Navigate(v) => Nav(v, if v != FormView then None else n.editingId)
    case EditOrder(id) => Nav(FormView, Some(id))
    case CreateOrder => Nav(FormView, None)
    case Saved => Nav(ListView, None)
    case CloseForm => Nav(ListView, n.editingId)
  }

  /**
   * Editing order 7, leaving the form with its back button and then choosing the sidebar's form
   * entry reopens order 7 for editing instead of a blank form.
   */
  lemma StaleEditAfterClose()
    ensures EditingOnlyInForm(InitialNav)
    ensures StepAsWritten(StepAsWritten(StepAsWritten(InitialNav, EditOrder(7)), CloseForm), Navigate(FormView))
            == Nav(FormView, Some(7))
    ensures !EditingOnlyInForm(StepAsWritten(StepAsWritten(InitialNav, EditOrder(7)), CloseForm))
  {
  }

  /** The handlers with the form's close clearing the edited id, as `handleSave` does. */
  function Step(n: Nav, e: NavEvent): (r: Nav)
    ensures EditingOnlyInForm(n) ==> EditingOnlyInForm(r)
    ensures e.Navigate? ==>
      r.view == e.target && r.editingId == (if e.target == FormView then n.editingId else None)
    ensures e.EditOrder? ==> r == Nav(FormView, Some(e.id))
    ensures e.CreateOrder? || e.Saved? || e.CloseForm? ==> r.editingId == None
    ensures e.CreateOrder? ==> r.view == FormView
    ensures e.Saved? || e.CloseForm? ==> r.view == ListView
    ensures !e.CloseForm? ==> r == StepAsWritten(n, e)
  {
    match e
    case Navigate(v) => Nav(v, if v != FormView then None else n.editingId)
    case EditOrder(id) => Nav(FormView, Some(id))
    case CreateOrder => Nav(FormView, None)
    case Saved => Nav(ListView, None)
    case CloseForm => Nav(ListView, None)
  }

  /** The state after handling `events` in turn. */
  function Run(n: Nav, events: seq<NavEvent>): (r: Nav)
    ensures events == [] ==> r == n
    ensures |events| > 0 && events[|events| - 1].EditOrder? ==> r == Nav(FormView, Some(events[|events| - 1].id))
    ensures |events| > 0 && events[|events| - 1].CreateOrder? ==> r == Nav(FormView, None)
    ensures |events| > 0 && (events[|events| - 1].Saved? || events[|events| - 1].CloseForm?) ==> r == Nav(ListView, None)
    decreases |events|
  {
    if events == [] then n else Run(Step(n, events[0]), events[1..])
  }

  /**
   * Whatever handlers have run since start-up, an order is only being edited while the form is
   * open; so entering the form from another view always opens a blank form.
   */
  lemma {:induction false} NoStaleEdit(events: seq<NavEvent>)
    ensures EditingOnlyInForm(Run(InitialNav, events))
    ensures Run(InitialNav, events).view != FormView ==>
            Step(Run(InitialNav, events), Navigate(FormView)) == Nav(FormView, None)
  {
    RunKeepsInvariant(InitialNav, events);
  }

  lemma {:induction false} RunKeepsInvariant(n: Nav, events: seq<NavEvent>)
    requires EditingOnlyInForm(n)
    ensures EditingOnlyInForm(Run(n, events))
    decreases |events|
  {
    if events != [] {
      RunKeepsInvariant(Step(n, events[0]), events[1..]);
    }
  }

  // ----- Routing -----

  datatype Screen = LoadingScreen | LandingPage | GuardedApp(view: ViewState)

  /** The loading screen while the session check runs, the landing page without a session, otherwise the guarded app. */
  function Route(authLoading: bool, session: Option<User>, view: ViewState): (s: Screen)
    ensures s == LoadingScreen <==> authLoading
    ensures s == LandingPage <==> !authLoading && session.None?
    ensures s.GuardedApp? <==> !authLoading && session.Some?
    ensures s.GuardedApp? ==> s.view == view
  {
    if authLoading then LoadingScreen
    else if session.None? then LandingPage
    else GuardedApp(view)
  }

  class AppState {
    var session: Option<User>
    var authLoading: bool
    var currentView: ViewState
    var editingId: Option<int>

    constructor()
      ensures session == None && authLoading
      ensures NavState() == InitialNav
    {
      session := None;
      authLoading := true;
      currentView := DashboardView;
      editingId := None;
    }

    function NavState(): Nav
      reads this
    {
      Nav(currentView, editingId)
    }

    function Screen(): Screen
      reads this
    {
      Route(authLoading, session, currentView)
    }

    /** The initial `getSession` resolved. */
    method OnInitialSession(s: Option<User>)
      modifies this
      ensures session == s && !authLoading && NavState() == old(NavState())
      ensures Screen() == if s.None? then LandingPage else GuardedApp(currentView)
    {
      session := s;
      authLoading := false;
    }

    /** A sign-in or sign-out reported by the backend. */
    method OnAuthStateChange(s: Option<User>)
      modifies this
      ensures session == s && authLoading == old(authLoading) && NavState() == old(NavState())
      ensures !authLoading ==> Screen() == if s.None? then LandingPage else GuardedApp(currentView)
    {
      session := s;
    }

    method HandleNavigate(v: ViewState)
      modifies this
      ensures NavState() == Step(old(NavState()), Navigate(v))
      ensures session == old(session) && authLoading == old(authLoading)
    {
      currentView := v;
      if v != FormView {
        editingId := None;
      }
    }

    method HandleEditOrder(id: int)
      modifies this
      ensures NavState() == Step(old(NavState()), EditOrder(id))
      ensures session == old(session) && authLoading == old(authLoading)
    {
      editingId := Some(id);
      currentView := FormView;
    }

    method HandleCreateOrder()
      modifies this
      ensures NavState() == Step(old(NavState()), CreateOrder)
      ensures session == old(session) && authLoading == old(authLoading)
    {
      editingId := None;
      currentView := FormView;
    }

    method HandleSave()
      modifies this
      ensures NavState() == Step(old(NavState()), Saved)
      ensures session == old(session) && authLoading == old(authLoading)
    {
      currentView := ListView;
      editingId := None;
    }

    /** The form's close button, with the edited id cleared. */
    method HandleClose()
      modifies this
      ensures NavState() == Step(old(NavState()), CloseForm)
      ensures session == old(session) && authLoading == old(authLoading)
    {
      currentView := ListView;
      editingId := None;
    }
  }
}
