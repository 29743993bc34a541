/**
 * The role-selection screen of the application shell.  Each of its two
 * buttons invokes the parent's role callback and then its login callback,
 * once each and in that order; the shell passes `setUserType` and a setter
 * that logs in.
 */
module RoleSelection {
  import opened Wrappers
  import opened Roles
  import App

  /** The Rider button. */
  method ClickRider(app: App.RideShareApp)
    modifies app
    ensures app.callbacks == old(app.callbacks) + [SelectUserType(Rider), Login]
    ensures app.State() == App.Apply(old(app.State()), App.ChooseRole(Rider))
    ensures app.isLoggedIn && app.userType == Some(Rider)
  {
    app.OnSelectUserType(Rider);
    app.OnLogin();
  }

  /** The Driver button. */
  method ClickDriver(app: App.RideShareApp)
    modifies app
    ensures app.callbacks == old(app.callbacks) + [SelectUserType(Driver), Login]
    ensures app.State() == App.Apply(old(app.State()), App.ChooseRole(Driver))
    ensures app.isLoggedIn && app.userType == Some(Driver)
  {
    app.OnSelectUserType(Driver);
    app.OnLogin();
  }
}
