/**
 * The application shell: which role the user picked, whether they are logged
 * in, whether the mobile menu is open, the header and mobile-menu buttons that
 * change these, and what the main area shows.
 *
 * `RideShareApp` is the component with its three state fields; `Apply` and
 * `Run` are its click handlers as functions on a state value.  In `Run` a
 * click on a control that is not rendered does nothing, since it cannot
 * happen.
 */
module App {
  import opened Wrappers
  import opened Roles

  datatype AppState = AppState(userType: Option<Role>, isLoggedIn: bool, isMobileMenuOpen: bool)

  const Initial := AppState(None, false, false)

  /** The clicks the shell reacts to; a role choice is one click on the selection screen. */
  datatype Action =
    | ChooseRole(role: Role)
    | SwitchMode
    | Logout
    | ToggleMenu
    | MobileSwitchMode
    | MobileLogout

  /** The mobile menu panel is rendered. */
  predicate MobileMenuShown(s: AppState) {
    s.isMobileMenuOpen && s.isLoggedIn
  }

  /** The control for the action is rendered. */
  predicate Offered(s: AppState, a: Action) {
    match a
    case ChooseRole(_) => UserTypeSelection in MainPanels(s.userType, s.isLoggedIn)
    case SwitchMode => s.isLoggedIn
    case Logout => s.isLoggedIn
    case ToggleMenu => true
    case MobileSwitchMode => MobileMenuShown(s)
    case MobileLogout => MobileMenuShown(s)
  }

  function Apply(s: AppState, a: Action): AppState {
    match a
    case ChooseRole(r) => s.(userType := Some(r)).(isLoggedIn := true)
    case SwitchMode => s.(userType := None)
    case Logout => s.(isLoggedIn := false)
    case ToggleMenu => s.(isMobileMenuOpen := !s.isMobileMenuOpen)
    case MobileSwitchMode => s.(userType := None, isMobileMenuOpen := false)
    case MobileLogout => s.(isLoggedIn := false, isMobileMenuOpen := false)
  }

  /** The state after a sequence of clicks; clicks on controls not rendered are ignored. */
  function Run(s: AppState, actions: seq<Action>): AppState
    decreases |actions|
  {
    if actions == [] then s
    else Run(if Offered(s, actions[0]) then Apply(s, actions[0]) else s, actions[1..])
  }

  predicate IsLogout(a: Action) {
    a.Logout? || a.MobileLogout?
  }

  /** Choosing a role on the selection screen logs in with that role and shows its dashboard. */
  lemma ChooseRoleShowsDashboard(s: AppState, r: Role)
    requires Offered(s, ChooseRole(r))
    ensures var t := Apply(s, ChooseRole(r));
            t.isLoggedIn && t.userType == Some(r) && MainPanels(t.userType, t.isLoggedIn) == {DashboardFor(r)}
  {
  }

  /** Switch Mode keeps the user logged in with no role: the main area shows nothing. */
  lemma SwitchModeBlanksMainArea(s: AppState)
    requires s.isLoggedIn
    ensures Apply(s, SwitchMode).isLoggedIn
    ensures MainPanels(Apply(s, SwitchMode).userType, Apply(s, SwitchMode).isLoggedIn) == {}
    ensures MainPanels(Apply(s, MobileSwitchMode).userType, Apply(s, MobileSwitchMode).isLoggedIn) == {}
  {
  }

  /** Logging out keeps the role and brings the selection screen back. */
  lemma LogoutShowsSelection(s: AppState)
    ensures Apply(s, Logout).userType == s.userType
    ensures MainPanels(Apply(s, Logout).userType, Apply(s, Logout).isLoggedIn) == {UserTypeSelection}
  {
  }

  /** The menu button flips the menu, so two presses restore the state. */
  lemma ToggleTwiceRestores(s: AppState)
    ensures Apply(Apply(s, ToggleMenu), ToggleMenu) == s
  {
  }

  /** The two mobile-menu buttons close the menu, so its panel is gone after either. */
  lemma MobileButtonsCloseMenu(s: AppState)
    ensures !MobileMenuShown(Apply(s, MobileSwitchMode)) && !MobileMenuShown(Apply(s, MobileLogout))
  {
  }

  /**
   * The header's Logout leaves `isMobileMenuOpen` as it was: an open menu is
   * not rendered while logged out and is rendered again as soon as a role is chosen.
   */
  lemma MenuReappearsAfterLogin(s: AppState, r: Role)
    requires MobileMenuShown(s)
    ensures !MobileMenuShown(Apply(s, Logout))
    ensures MobileMenuShown(Apply(Apply(s, Logout), ChooseRole(r)))
  {
  }

  /**
   * After Switch Mode the main area stays empty, whatever the user clicks,
   * until they log out: no control for choosing a role is rendered.
   */
  lemma {:induction false} StrandedUntilLogout(s: AppState, actions: seq<Action>)
    requires s.isLoggedIn && s.userType == None
    requires forall i :: 0 <= i < |actions| ==> !IsLogout(actions[i])
    ensures Run(s, actions).isLoggedIn && Run(s, actions).userType == None
    ensures MainPanels(Run(s, actions).userType, Run(s, actions).isLoggedIn) == {}
    decreases |actions|
  {
    if actions != [] {
      var a := actions[0];
      var t := if Offered(s, a) then Apply(s, a) else s;
      assert !IsLogout(a);
      StrandedUntilLogout(t, actions[1..]);
    }
  }

  /** The shell component, its state fields updated in place by its click handlers. */
  class RideShareApp {
    var userType: Option<Role>
    var isLoggedIn: bool
    var isMobileMenuOpen: bool
    /** Every callback the selection screen has invoked on the shell. */
    ghost var callbacks: seq<Callback>

    function State(): AppState
      reads this
    {
      AppState(userType, isLoggedIn, isMobileMenuOpen)
    }

    constructor ()
      ensures State() == Initial && callbacks == []
    {
      userType := None;
      isLoggedIn := false;
      isMobileMenuOpen := false;
      callbacks := [];
    }

    /** The header's Switch Mode button. */
    method OnSwitchMode()
      modifies this
      ensures userType == None && isLoggedIn == old(isLoggedIn) && isMobileMenuOpen == old(isMobileMenuOpen)
      ensures State() == Apply(old(State()), SwitchMode) && callbacks == old(callbacks)
    {
      userType := None;
    }

    /** The header's Logout button. */
    method OnLogout()
      modifies this
      ensures !isLoggedIn && userType == old(userType) && isMobileMenuOpen == old(isMobileMenuOpen)
      ensures State() == Apply(old(State()), Logout) && callbacks == old(callbacks)
    {
      isLoggedIn := false;
    }

    /** The menu button. */
    method OnMenuButton()
      modifies this
      ensures isMobileMenuOpen == !old(isMobileMenuOpen)
      ensures userType == old(userType) && isLoggedIn == old(isLoggedIn)
      ensures State() == Apply(old(State()), ToggleMenu) && callbacks == old(callbacks)
    {
      isMobileMenuOpen := !isMobileMenuOpen;
    }

    /** The mobile menu's Switch Mode button: also closes the menu. */
    method OnMobileSwitchMode()
      modifies this
      ensures userType == None && isLoggedIn == old(isLoggedIn) && !isMobileMenuOpen
      ensures State() == Apply(old(State()), MobileSwitchMode) && callbacks == old(callbacks)
    {
      userType := None;
      isMobileMenuOpen := false;
    }

    /** The mobile menu's Logout button: also closes the menu. */
    method OnMobileLogout()
      modifies this
      ensures !isLoggedIn && userType == old(userType) && !isMobileMenuOpen
      ensures State() == Apply(old(State()), MobileLogout) && callbacks == old(callbacks)
    {
      isLoggedIn := false;
      isMobileMenuOpen := false;
    }

    /** The `onSelectUserType` callback handed to the selection screen: `setUserType`. */
    method OnSelectUserType(role: Role)
      modifies this
      ensures userType == Some(role) && isLoggedIn == old(isLoggedIn) && isMobileMenuOpen == old(isMobileMenuOpen)
      ensures callbacks == old(callbacks) + [SelectUserType(role)]
    {
      userType := Some(role);
      callbacks := callbacks + [SelectUserType(role)];
    }

    /** The `onLogin` callback handed to the selection screen. */
    method OnLogin()
      modifies this
      ensures isLoggedIn && userType == old(userType) && isMobileMenuOpen == old(isMobileMenuOpen)
      ensures callbacks == old(callbacks) + [Login]
    {
      isLoggedIn := true;
      callbacks := callbacks + [Login];
    }
  }
}
