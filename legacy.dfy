/**
 * The earlier single-file version of the application: a shell with a role
 * and a login flag only, its own role-selection screen, and rider and driver
 * dashboards that hold a draft and only log it when submitted.
 *
 * Its Logout button lives inside the dashboards, and its header offers only
 * Switch Mode; `Offered` records which controls are rendered.
 */
module Legacy {
  import opened Wrappers
  import opened Roles
  import opened Drafts

  datatype LegacyState = LegacyState(userType: Option<Role>, isLoggedIn: bool)

  const Initial := LegacyState(None, false)

  /** The clicks the shell reacts to. */
  datatype Action = ChooseRole(role: Role) | SwitchMode | Logout

  /** The control for the action is rendered: Logout only inside a dashboard. */
  predicate Offered(s: LegacyState, a: Action) {
    var panels := MainPanels(s.userType, s.isLoggedIn);
    match a
    case ChooseRole(_) => UserTypeSelection in panels
    case SwitchMode => s.isLoggedIn
    case Logout => RiderDashboard in panels || DriverDashboard in panels
  }

  function Apply(s: LegacyState, a: Action): LegacyState {
    match a
    case ChooseRole(r) => s.(userType := Some(r)).(isLoggedIn := true)
    case SwitchMode => s.(userType := None)
    case Logout => s.(isLoggedIn := false)
  }

  /** The state after a sequence of clicks; clicks on controls not rendered are ignored. */
  function Run(s: LegacyState, actions: seq<Action>): LegacyState
    decreases |actions|
  {
    if actions == [] then s
    else Run(if Offered(s, actions[0]) then Apply(s, actions[0]) else s, actions[1..])
  }

  /** Choosing a role logs in with it; the main area then shows that role's dashboard alone. */
  lemma ChooseRoleShowsDashboard(s: LegacyState, r: Role)
    requires Offered(s, ChooseRole(r))
    ensures var t := Apply(s, ChooseRole(r));
            t == LegacyState(Some(r), true) && MainPanels(t.userType, t.isLoggedIn) == {DashboardFor(r)}
  {
  }

  /**
   * In this version Switch Mode is a dead end: logged in with no role, no
   * dashboard (and so no Logout) and no selection screen is rendered, so
   * nothing the user clicks changes the state again.
   */
  lemma {:induction false} SwitchModeIsTerminal(s: LegacyState, actions: seq<Action>)
    requires s.isLoggedIn && s.userType == None
    ensures Run(s, actions) == s
    ensures MainPanels(Run(s, actions).userType, Run(s, actions).isLoggedIn) == {}
    decreases |actions|
  {
    if actions != [] {
      var t := if Offered(s, actions[0]) then Apply(s, actions[0]) else s;
      assert t == s;
      SwitchModeIsTerminal(t, actions[1..]);
    }
  }

  /** The earlier shell component. */
  class LegacyRideShareApp {
    var userType: Option<Role>
    var isLoggedIn: bool
    /** Every callback the selection screen has invoked on the shell. */
    ghost var callbacks: seq<Callback>

    function State(): LegacyState
      reads this
    {
      LegacyState(userType, isLoggedIn)
    }

    constructor ()
      ensures State() == Initial && callbacks == []
    {
      userType := None;
      isLoggedIn := false;
      callbacks := [];
    }

    /** The header's Switch Mode button (rendered only when logged in, see `Offered`). */
    method OnSwitchMode()
      modifies this
      ensures userType == None && isLoggedIn == old(isLoggedIn)
      ensures State() == Apply(old(State()), SwitchMode) && callbacks == old(callbacks)
    {
      userType := None;
    }

    /** The `onLogout` callback handed to both dashboards. */
    method OnLogout()
      modifies this
      ensures !isLoggedIn && userType == old(userType)
      ensures State() == Apply(old(State()), Logout) && callbacks == old(callbacks)
    {
      isLoggedIn := false;
    }

    /** The `onSelectUserType` callback: `setUserType`. */
    method OnSelectUserType(role: Role)
      modifies this
      ensures userType == Some(role) && isLoggedIn == old(isLoggedIn)
      ensures callbacks == old(callbacks) + [SelectUserType(role)]
    {
      userType := Some(role);
      callbacks := callbacks + [SelectUserType(role)];
    }

    /** The `onLogin` callback. */
    method OnLogin()
      modifies this
      ensures isLoggedIn && userType == old(userType)
      ensures callbacks == old(callbacks) + [Login]
    {
      isLoggedIn := true;
      callbacks := callbacks + [Login];
    }
  }

  /** The Rider button of the earlier selection screen. */
  method ClickRider(app: LegacyRideShareApp)
    modifies app
    ensures app.callbacks == old(app.callbacks) + [SelectUserType(Rider), Login]
    ensures app.State() == Apply(old(app.State()), ChooseRole(Rider))
  {
    app.OnSelectUserType(Rider);
    app.OnLogin();
  }

  /** The Driver button of the earlier selection screen. */
  method ClickDriver(app: LegacyRideShareApp)
    modifies app
    ensures app.callbacks == old(app.callbacks) + [SelectUserType(Driver), Login]
    ensures app.State() == Apply(old(app.State()), ChooseRole(Driver))
  {
    app.OnSelectUserType(Driver);
    app.OnLogin();
  }

  /** The earlier rider dashboard: a draft and a submit handler that only logs it. */
  class LegacyRiderDashboard {
    var rideSearch: RideSearch

    constructor ()
      ensures rideSearch == EmptySearch
    {
      rideSearch := EmptySearch;
    }

    /** The `onChange` handler of one input. */
    method EditRideSearch(e: SearchEdit)
      modifies this
      ensures rideSearch == EditSearch(old(rideSearch), e)
    {
      rideSearch := EditSearch(rideSearch, e);
    }

    /** `handleRideSearch`: changes nothing and hands the current draft to the console. */
    method HandleRideSearch() returns (logged: RideSearch)
      ensures logged == rideSearch
    {
      logged := rideSearch;
    }
  }

  /** The earlier driver dashboard: a draft and a submit handler that only logs it. */
  class LegacyDriverDashboard {
    var rideOffer: RideOffer

    constructor ()
      ensures rideOffer == EmptyOffer
    {
      rideOffer := EmptyOffer;
    }

    /** The `onChange` handler of one input. */
    method EditRideOffer(e: OfferEdit)
      modifies this
      ensures rideOffer == EditOffer(old(rideOffer), e)
    {
      rideOffer := EditOffer(rideOffer, e);
    }

    /** `handleRideOffer`: changes nothing and hands the current draft to the console. */
    method HandleRideOffer() returns (logged: RideOffer)
      ensures logged == rideOffer
    {
      logged := rideOffer;
    }
  }
}
