/**
 * What both versions of the application share about roles: the two roles a
 * user can pick, the panels of the main area, the callbacks the role-selection
 * screen invokes, and the choice of which panels the main area shows.
 */
module Roles {
  import opened Wrappers

  /** The only two values the selection screen can pass; `null` is `None` of an `Option<Role>`. */
  datatype Role = Rider | Driver

  datatype Panel = UserTypeSelection | RiderDashboard | DriverDashboard

  /** A callback invoked by the selection screen on its parent. */
  datatype Callback = SelectUserType(role: Role) | Login

  /**
   * The main area: three independent conditionals on `isLoggedIn` and
   * `userType`.  They are mutually exclusive, and a logged-in user with no
   * role sees none of them.
   */
  function MainPanels(userType: Option<Role>, isLoggedIn: bool): (p: set<Panel>)
    ensures |p| <= 1
    ensures UserTypeSelection in p <==> !isLoggedIn
    ensures RiderDashboard in p <==> isLoggedIn && userType == Some(Rider)
    ensures DriverDashboard in p <==> isLoggedIn && userType == Some(Driver)
    ensures p == {} <==> isLoggedIn && userType == None
  {
    var p :=
      (if !isLoggedIn then {UserTypeSelection} else {}) +
      (if isLoggedIn && userType == Some(Rider) then {RiderDashboard} else {}) +
      (if isLoggedIn && userType == Some(Driver) then {DriverDashboard} else {});
    assert !isLoggedIn ==> UserTypeSelection in p;
    assert isLoggedIn && userType.Some? ==> DashboardFor(userType.value) in p;
    p
  }

  /** The dashboard shown for a role. */
  function DashboardFor(r: Role): Panel {
    match r
    case Rider => RiderDashboard
    case Driver => DriverDashboard
  }
}
