/** The application shell: who is logged in, which view is chosen, whether
    the login form is showing; which screen that state renders; and the
    handlers the shell passes down, which forward to the data hook and
    swallow its failures. */
module App {
  import opened Common
  import opened Types
  import opened Lists
  import opened DataStore

  /** What the shell shows. */
  datatype Screen = LoadingScreen | ErrorScreen(message: string) | LoginScreen
                  | DashboardScreen | AdminScreen | CollectorScreen

  /** `renderView`: the admin panel only for an admin on the admin view, the
      collector view only for a collector on the collector view, the
      dashboard for every other combination, logged in or not. */
  function RenderView(view: View, user: Option<User>): (s: Screen)
    ensures s == AdminScreen <==> view == View.Admin && user.Some? && user.value.role == Role.Admin
    ensures s == CollectorScreen <==> view == View.Collector && user.Some? && user.value.role == Role.Collector
    ensures s == AdminScreen || s == CollectorScreen || s == DashboardScreen
  {
    if view == View.Dashboard then DashboardScreen
    else if user.Some? && user.value.role == Role.Admin && view == View.Admin then AdminScreen
    else if user.Some? && user.value.role == Role.Collector && view == View.Collector then CollectorScreen
    else DashboardScreen
  }

  /** The whole page: the spinner while loading, then the error text when
      there is one (an empty text counts as none), then the login form when
      asked for, and the chosen view otherwise. */
  function Page(loading: bool, error: Option<string>, showLogin: bool, view: View, user: Option<User>): (s: Screen)
    ensures s == LoadingScreen <==> loading
    ensures s.ErrorScreen? <==> !loading && error.Some? && error.value != []
    ensures s.ErrorScreen? ==> s.message == error.value
    ensures s == LoginScreen <==> !loading && (error.None? || error.value == []) && showLogin
    ensures !loading && (error.None? || error.value == []) && !showLogin ==> s == RenderView(view, user)
  {
    if loading then LoadingScreen
    else if error.Some? && error.value != [] then ErrorScreen(error.value)
    else if showLogin then LoginScreen
    else RenderView(view, user)
  }

  class AppState {
    var currentUser: Option<User>
    var currentView: View
    var showLogin: bool

    /** Nobody logged in, the dashboard chosen, no login form. */
    constructor ()
      ensures currentUser == None && currentView == View.Dashboard && !showLogin
    {
      currentUser := None;
      currentView := View.Dashboard;
      showLogin := false;
    }

    /** The screen this state renders over the hook's state. */
    function Screen(store: Store): Screen
      reads this, store
    {
      Page(store.loading, store.error, showLogin, currentView, currentUser)
    }

    /** `handleLogin`: on a match the user is logged in, the form closes and
        a collector lands on the collector view, an admin on the dashboard;
        otherwise the shell is left as it was. */
    method HandleLogin(store: Store, username: string, password: string, lookup: Reply<Option<User>>)
      returns (ok: bool)
      requires lookup.Done? && lookup.value.Some? ==> lookup.value.value.username == username
      modifies this, store
      ensures ok <==> lookup.Done? && lookup.value.Some? && lookup.value.value.password == password
      ensures ok ==> currentUser == lookup.value && !showLogin
      ensures ok ==> currentView == if lookup.value.value.role == Role.Collector then View.Collector else View.Dashboard
      ensures !ok ==> currentUser == old(currentUser) && currentView == old(currentView) && showLogin == old(showLogin)
      ensures lookup.Done? ==> store.State() == old(store.State())
      ensures lookup.Failed? ==> store.State() == old(store.State()).(
                error := Some(Describe(lookup.fault, "Authentication failed")))
    {
      var user := store.AuthenticateUser(username, password, lookup);
      if user.Some? {
        currentUser := user;
        showLogin := false;
        if user.value.role == Role.Collector {
          currentView := View.Collector;
        } else {
          currentView := View.Dashboard;
        }
        return true;
      }
      return false;
    }

    /** `handleLogout`: nobody logged in, back on the dashboard. */
    method HandleLogout()
      modifies this
      ensures currentUser == None && currentView == View.Dashboard && showLogin == old(showLogin)
    {
      currentUser := None;
      currentView := View.Dashboard;
    }

    /** The header's login button. */
    method ShowLoginForm()
      modifies this
      ensures showLogin && currentUser == old(currentUser) && currentView == old(currentView)
    {
      showLogin := true;
    }

    /** The header's view switch. */
    method SetCurrentView(v: View)
      modifies this
      ensures currentView == v && currentUser == old(currentUser) && showLogin == old(showLogin)
    {
      currentView := v;
    }

    /** `handleMarkAsCollected`: nothing without a logged-in user; otherwise
        the hook marks the household on behalf of the current user, and a
        failure is only logged. */
    method HandleMarkAsCollected(store: Store, householdId: Id, location: Option<Coords>, now: Instant,
                                 statusAck: Ack, recordReply: Reply<Id>)
      modifies store
      ensures currentUser.None? ==> store.State() == old(store.State())
      ensures currentUser.Some? ==> store.State() == AfterMark(old(store.State()), householdId, currentUser.value.id,
                                                                location, now, statusAck, recordReply)
    {
      if currentUser.None? {
        return;
      }
      var _ := store.MarkAsCollected(householdId, currentUser.value.id, location, now, statusAck, recordReply);
    }

    /** `handleDeleteUser`: deleting one's own account is refused before the
        hook is called; any other id goes to the hook. */
    method HandleDeleteUser(store: Store, userId: Id, ack: Ack)
      modifies store
      ensures currentUser.Some? && currentUser.value.id == userId ==> store.State() == old(store.State())
      ensures !(currentUser.Some? && currentUser.value.id == userId) ==>
                store.State() == if ack.Done? then old(store.State()).(users := Without(old(store.users), UserId, userId))
                                 else old(store.State()).(error := Some(Describe(ack.fault, "Failed to delete user")))
    {
      if currentUser.Some? && currentUser.value.id == userId {
        return;
      }
      var _ := store.DeleteUser(userId, ack);
    }

    /** `handleUpdateHousehold`: the edited household replaces every entry
        with its id. */
    method HandleUpdateHousehold(store: Store, h: Household, ack: Ack)
      modifies store
      ensures ack.Done? ==> store.State() == old(store.State()).(
                households := UpdateWhere(old(store.households), HouseholdId, h.id, MergeHousehold, WholeHousehold(h)))
      ensures ack.Failed? ==> store.State() == old(store.State()).(
                error := Some(Describe(ack.fault, "Failed to update household")))
    {
      var _ := store.UpdateHousehold(h.id, WholeHousehold(h), ack);
    }

    /** `handleDeleteHousehold`. */
    method HandleDeleteHousehold(store: Store, householdId: Id, ack: Ack)
      modifies store
      ensures ack.Done? ==> store.State() == old(store.State()).(
                households := Without(old(store.households), HouseholdId, householdId))
      ensures ack.Failed? ==> store.State() == old(store.State()).(
                error := Some(Describe(ack.fault, "Failed to delete household")))
    {
      var _ := store.DeleteHousehold(householdId, ack);
    }
  }

  /** The edited household ends up in every entry with its id, and the list
      keeps its length and its other entries. */
  lemma UpdateReplaces(hs: seq<Household>, h: Household)
    ensures var after := UpdateWhere(hs, HouseholdId, h.id, MergeHousehold, WholeHousehold(h));
            |after| == |hs|
            && (forall i :: 0 <= i < |hs| && hs[i].id == h.id ==> after[i] == h)
            && (forall i :: 0 <= i < |hs| && hs[i].id != h.id ==> after[i] == hs[i])
  {
  }

  /** After a successful login the page, once loaded without error, shows
      the collector view to a collector and the dashboard to an admin: an
      admin reaches the admin panel only by choosing it. */
  lemma LandingScreen(u: User)
    ensures Page(false, None, false, if u.role == Role.Collector then View.Collector else View.Dashboard, Some(u))
         == if u.role == Role.Collector then CollectorScreen else DashboardScreen
  {
  }

  /** A failed write whose error text is not empty replaces the whole page
      by the error screen, whatever was shown before: the panels and their
      form state are no longer on screen. Only an `Error` with an empty
      message leaves the page as it was. */
  lemma FailedWriteShowsError(f: Fault, fallback: string, showLogin: bool, view: View, user: Option<User>)
    requires fallback != ""
    ensures Page(false, Some(Describe(f, fallback)), showLogin, view, user).ErrorScreen?
            <==> !(f.ErrorObject? && f.message == "")
  {
  }

  /** Nobody reaches a protected screen without the matching role: a visitor
      who is not logged in sees the dashboard whatever view is chosen. */
  lemma VisitorSeesDashboard(view: View, showLogin: bool)
    ensures Page(false, None, showLogin, view, None) == if showLogin then LoginScreen else DashboardScreen
  {
  }
}
