# RideConnect front end: connectivity gate, submissions and role/login state

A Dafny model of the state logic of the RideConnect ride-sharing front end:

- the **driver and rider dashboards**: a two-step connectivity check (network
  reachability, then backend reachability) that sets two tri-state flags, an
  error banner and a loading flag; a submit handler that refuses to write
  unless the backend is known to be reachable and otherwise inserts the draft
  as one row into `ride_offers` or `ride_searches`; the draft updates of the
  form inputs; and the choice of the four views (Checking, No Internet,
  Backend Down, Form), plus the environment-configuration guide, which takes
  priority on the rider dashboard;
- the **application shell** (`RideShareApp.tsx`): `userType`, `isLoggedIn`
  and `isMobileMenuOpen`, the Switch Mode / Logout buttons in the header and
  the mobile menu, the menu button, and which panel the main area shows;
- the **role-selection screen**: each button invokes the role callback and
  then the login callback;
- the **earlier single-file version** (`ride-share-app.tsx`): its shell,
  selection screen and dashboards whose submit handlers only log the draft.

Layout: `wrappers.dfy` (Option), `connectivity.dfy` (the gate both
dashboards share), `drafts.dfy` (draft records and their field updates),
`driver.dfy`, `rider.dfy`, `roles.dfy` (roles and the main-area choice shared
by both shells), `app.dfy`, `role_selection.dfy`, `legacy.dfy`.

Components whose fields the source updates in place are classes whose methods
follow the handlers statement by statement. Each shell class and each connected dashboard class has a `State()` value,
and the methods' postconditions tie it to pure functions (`CheckGate`,
`SubmitGate`, `EditOffer`, `Apply`, …). Each component module (`Driver`,
`Rider`, `App`, `Legacy`) also has a `Run` function that replays any sequence of user events through those functions. The lemmas
over `Run` state what holds in every session.

Remote calls are parameters. The network probe, the backend probe and the
insert are each a boolean outcome supplied by the caller. The probe wrappers
in `lib_supabaseClient.ts` catch every error and return `false`. Every call a dashboard makes goes into a ghost
log (`calls`). Each log entry also records the loading flag and error banner
shown while the call was made. Whether the two backend settings are present
in the environment is fixed for a session: the rider dashboard is constructed
with a `Config`, and its `Run` receives that `Config` once.

Three behaviours of the code that the model keeps:
- The configuration guide exists only on the rider dashboard.
- The rider sets its configuration flag only after the backend probe, so a
  failed network probe leaves it as it was.
- The earlier shell has no Logout in its header; logout is only inside the
  two dashboards. So after Switch Mode the user can never leave the empty
  main area (`Legacy.SwitchModeIsTerminal`).

## Model

| member | source | states |
|---|---|---|
| Connectivity.GateView | components_DriverDashboard.tsx:79-112 | the rendered view is a total function of the two flags with exactly one of four outcomes: Checking iff a flag is null, No Internet iff the network flag is false, Backend Down iff network true and backend false, Form iff both true; never the configuration guide |
| Connectivity.CheckGate | components_DriverDashboard.tsx:20-40 | a check ends with both flags set (network flag = network outcome, backend flag = both outcomes), not loading. A failed network probe gives the no-internet error and makes exactly one call: the network probe, issued with loading on and no error, so the backend probe is skipped. Otherwise the error is the database message iff the backend probe failed, and is null when it succeeded. The view afterwards is No Internet / Backend Down / Form accordingly |
| Connectivity.SubmitGate | components_DriverDashboard.tsx:46-77 | unless `isConnected` is true: only the database error is set; no call is made and the loading flag is unchanged. When connected: exactly one insert of the given row into the given table, issued with loading on and no error. It ends not loading, with the failure message iff the insert failed. The flags are never changed |
| Connectivity.RetryRunsBothProbes | components_DriverDashboard.tsx:20-40 | a retry after a network failure runs the whole sequence again: the view goes No Internet then Form, and the calls are network, network, backend |
| Drafts.EditOffer | components_DriverDashboard.tsx:121-145 | an input's update sets exactly its own field of the offer draft to the input value; the other three fields are unchanged |
| Drafts.EditSearch | components_RiderDashboard.tsx:128-142 | an input's update sets exactly its own field of the search draft; the other two fields are unchanged |
| Drafts.OfferEditsCommute | components_DriverDashboard.tsx:121-145 | updates of two different offer fields commute |
| Drafts.OfferEditOverwrites | components_DriverDashboard.tsx:121-145 | a later update of the same offer field replaces the earlier one |
| Drafts.SearchEditsCommute | components_RiderDashboard.tsx:128-142 | updates of two different search fields commute |
| Drafts.SearchEditOverwrites | components_RiderDashboard.tsx:128-142 | a later update of the same search field replaces the earlier one |
| Driver.OfferRow | components_DriverDashboard.tsx:56-65 | the inserted row has exactly the columns start_location, end_location, departure_time, available_seats. They hold the draft's start, end, departure time and seats |
| Driver.OfferRowInjective | components_DriverDashboard.tsx:56-65 | the row carries the whole draft: equal rows come from equal drafts |
| Driver.View | components_DriverDashboard.tsx:79-112 | the driver dashboard never shows the configuration guide and shows Checking iff a check has not completed |
| Driver.CheckingNeverReturns | components_DriverDashboard.tsx:24-39 | once both flags are set, they stay set after any sequence of checks, posts and edits, so the Checking view never reappears |
| Driver.NoInsertUntilConnected | components_DriverDashboard.tsx:47-65 | starting not connected, no sequence of events makes an insert until some check finds both network and backend up |
| Driver.CallsIssuedWhileLoading | components_DriverDashboard.tsx:20-65 | in every session, every probe and insert is made while the loading flag is on and the error banner is cleared |
| Driver.DraftIsEdits | components_DriverDashboard.tsx:20-77 | checks and posts never modify the draft: after any events it equals the start draft with exactly the edit events applied, in order |
| Driver.NeverLeftLoading | components_DriverDashboard.tsx:20-77 | if not loading at the start, the dashboard is not loading after any sequence of events |
| Driver.DriverDashboard.constructor | components_DriverDashboard.tsx:9-18 | initial state: empty strings and one seat, no error, not loading, both flags null, no calls |
| Driver.DriverDashboard.CheckConnection | components_DriverDashboard.tsx:20-40 | the in-place handler leaves exactly the state and call log of `CheckGate`, and the draft is unchanged |
| Driver.DriverDashboard.HandleRideOffer | components_DriverDashboard.tsx:46-77 | the in-place handler leaves exactly the state and call log of `SubmitGate`, with the draft's row and the `ride_offers` table. The draft is unchanged. Not connected means no call; connected means exactly one insert of the current draft's row |
| Driver.DriverDashboard.EditRideOffer | components_DriverDashboard.tsx:121-145 | an input changes the draft by `EditOffer` and nothing else |
| Rider.SearchRow | components_RiderDashboard.tsx:60-68 | the inserted row has exactly the columns start_location, end_location, preferred_time, holding the draft's three fields |
| Rider.SearchRowInjective | components_RiderDashboard.tsx:60-68 | equal rows come from equal drafts |
| Rider.View | components_RiderDashboard.tsx:82-119 | the configuration guide is shown iff the configuration flag is set. Otherwise the view is the four-way choice on the two flags |
| Rider.CheckConnectionStep | components_RiderDashboard.tsx:21-44 | the flags, error, loading flag and calls are those of the shared check. The draft is kept. The configuration flag becomes "URL or key missing" for the session's environment only when the network probe succeeded; otherwise it keeps its old value |
| Rider.EnvFlagNeedsNetwork | components_RiderDashboard.tsx:28-43 | over any session in which every network probe fails, the configuration flag never changes |
| Rider.NoEnvGuideWithoutNetwork | components_RiderDashboard.tsx:82-84 | from mount, the configuration guide cannot appear until some check gets past the network probe |
| Rider.EnvFlagIsTrue | components_RiderDashboard.tsx:43 | the configuration flag, once set, is only ever set when a setting really is missing from the session's environment |
| Rider.EnvFlagStaysSet | components_RiderDashboard.tsx:28-43 | with a setting missing, a set configuration flag stays set over any events: later checks either return early or set it again |
| Rider.EnvGuideStaysShown | components_RiderDashboard.tsx:82-84 | once the configuration guide has appeared in a session started from mount, it is shown for the rest of that session |
| Rider.CheckingNeverReturns | components_RiderDashboard.tsx:25-36 | once both flags are set they stay set, so the Checking view never reappears |
| Rider.NoInsertUntilConnected | components_RiderDashboard.tsx:51-68 | starting not connected, nothing is inserted into ride_searches until some check finds both network and backend up |
| Rider.DraftIsEdits | components_RiderDashboard.tsx:50-80 | checks and searches never modify the draft: it equals the start draft with exactly the edit events applied |
| Rider.RiderDashboard.constructor | components_RiderDashboard.tsx:10-19 | initial state: three empty strings, no error, not loading, both flags null, configuration flag false, no calls; the session's environment is the one given |
| Rider.RiderDashboard.CheckConnection | components_RiderDashboard.tsx:21-44 | the in-place handler leaves exactly the state and calls of `CheckConnectionStep`. After a failed network probe, only the network probe was called and the configuration flag is unchanged |
| Rider.RiderDashboard.HandleRideSearch | components_RiderDashboard.tsx:50-80 | the in-place handler leaves exactly the state and call log of `SubmitGate`, with the draft's row and `ride_searches`. Not connected means no call; connected means exactly one insert |
| Rider.RiderDashboard.EditRideSearch | components_RiderDashboard.tsx:128-142 | an input changes the draft by `EditSearch` and nothing else |
| Roles.MainPanels | RideShareApp.tsx:71-84 | at most one panel is shown. The selection screen is shown iff logged out. The rider or driver dashboard is shown iff logged in with that role. Nothing is shown iff logged in with no role |
| App.ChooseRoleShowsDashboard | RideShareApp.tsx:72-84 | choosing a role on the selection screen logs in with that role, and that role's dashboard is the only panel shown |
| App.SwitchModeBlanksMainArea | RideShareApp.tsx:21-26 | after Switch Mode (header or mobile) the user is still logged in with no role, and the main area shows nothing |
| App.LogoutShowsSelection | RideShareApp.tsx:27-32 | Logout keeps the role and brings back the selection screen as the only panel |
| App.ToggleTwiceRestores | RideShareApp.tsx:35-40 | the menu button flips the menu flag, so pressing it twice restores the state |
| App.MobileButtonsCloseMenu | RideShareApp.tsx:44-66 | after either mobile-menu button, the mobile menu panel is no longer shown |
| App.MenuReappearsAfterLogin | RideShareApp.tsx:27-44 | the header Logout hides an open mobile menu without closing it, so the menu is shown again as soon as a role is chosen |
| App.StrandedUntilLogout | RideShareApp.tsx:14-84 | logged in with no role, any clicks other than Logout leave the user logged in with no role and the main area empty |
| App.RideShareApp.constructor | RideShareApp.tsx:10-12 | initial state: no role, logged out, menu closed, no callbacks |
| App.RideShareApp.OnSwitchMode | RideShareApp.tsx:21-26 | sets the role to null and changes nothing else |
| App.RideShareApp.OnLogout | RideShareApp.tsx:27-32 | logs out and changes nothing else |
| App.RideShareApp.OnMenuButton | RideShareApp.tsx:35-40 | flips the menu flag and changes nothing else |
| App.RideShareApp.OnMobileSwitchMode | RideShareApp.tsx:46-56 | sets the role to null and closes the menu; login unchanged |
| App.RideShareApp.OnMobileLogout | RideShareApp.tsx:57-66 | logs out and closes the menu; role unchanged |
| App.RideShareApp.OnSelectUserType | RideShareApp.tsx:72-75 | the role callback sets the role, changes nothing else, and is logged |
| App.RideShareApp.OnLogin | RideShareApp.tsx:72-75 | the login callback logs in, changes nothing else, and is logged |
| RoleSelection.ClickRider | components_UserTypeSelection.tsx:18-21 | the Rider button invokes the role callback with 'rider' and then the login callback, once each, in that order. The shell ends logged in as a rider |
| RoleSelection.ClickDriver | components_UserTypeSelection.tsx:28-31 | the Driver button invokes the role callback with 'driver' and then the login callback, once each, in that order. The shell ends logged in as a driver |
| Legacy.ChooseRoleShowsDashboard | ride-share-app.tsx:34-49 | choosing a role logs in with it, and that role's dashboard is the only panel shown |
| Legacy.SwitchModeIsTerminal | ride-share-app.tsx:21-49 | in the earlier shell, logged in with no role, no sequence of clicks ever changes the state again, and the main area stays empty |
| Legacy.LegacyRideShareApp.constructor | ride-share-app.tsx:13-14 | initial state: no role, logged out |
| Legacy.LegacyRideShareApp.OnSwitchMode | ride-share-app.tsx:21-30 | sets the role to null and keeps the login flag |
| Legacy.LegacyRideShareApp.OnLogout | ride-share-app.tsx:43-48 | the dashboards' logout callback logs out and keeps the role |
| Legacy.LegacyRideShareApp.OnSelectUserType | ride-share-app.tsx:34-38 | the role callback sets the role, keeps the login flag, and is logged |
| Legacy.LegacyRideShareApp.OnLogin | ride-share-app.tsx:34-38 | the login callback logs in, keeps the role, and is logged |
| Legacy.ClickRider | ride-share-app.tsx:62-65 | the Rider button invokes the role callback with 'rider', then the login callback |
| Legacy.ClickDriver | ride-share-app.tsx:72-75 | the Driver button invokes the role callback with 'driver', then the login callback |
| Legacy.LegacyRiderDashboard.constructor | ride-share-app.tsx:89-93 | the search draft starts as three empty strings |
| Legacy.LegacyRiderDashboard.EditRideSearch | ride-share-app.tsx:111-134 | an input changes exactly its own field of the draft |
| Legacy.LegacyRiderDashboard.HandleRideSearch | ride-share-app.tsx:95-98 | the submit handler changes no state and yields the current draft, the value it logs |
| Legacy.LegacyDriverDashboard.constructor | ride-share-app.tsx:176-181 | the offer draft starts with empty strings and one seat |
| Legacy.LegacyDriverDashboard.EditRideOffer | ride-share-app.tsx:199-235 | an input changes exactly its own field of the draft |
| Legacy.LegacyDriverDashboard.HandleRideOffer | ride-share-app.tsx:183-186 | the submit handler changes no state and yields the current draft, the value it logs |

## Left out

- Screen width: the header buttons (`hidden md:flex`) and the menu button and mobile panel (`md:hidden`) are each visible at only one width; `Offered` treats every rendered control as clickable, so `MenuReappearsAfterLogin` needs a resize between opening the menu and the header Logout.
- The probes (`testNetworkConnectivity`, `checkSupabaseConnection` in `lib_supabaseClient.ts`). They are network calls. Each is a boolean outcome, matching their catch-all handlers that return `false`.
- The database client, its creation with fallback settings, and the insert call. Each insert is a success/failure parameter plus its entry in the ghost call log.
- The seat input's `parseInt`. It can produce NaN; seats are an arbitrary integer supplied by the input. The HTML `min`/`max` limits are not enforced by the code, and no 1–4 bound is claimed.
- Calls that never settle. The code sets no time-out on either probe or on the insert. Every step here completes, and `Driver.NeverLeftLoading` and both `CheckingNeverReturns` lemmas rely on that: a hung call would leave the dashboard loading, or on the Checking view if it is the mount-time check.
- Asynchronous interleaving. Each check and each submit is one atomic step, so overlapping retries, stale closures and a click while a call is pending are not modelled. Because steps are atomic, the submit button's `disabled={isLoading}` never disables anything between steps (`Driver.NeverLeftLoading`).
- The mount effect. It is modelled as the caller running `CheckConnection` once after the constructor.
- Where each control appears on the dashboards. Retry buttons appear only in the two failure views, and the submit button only in the Form view. The dashboards' `Run` accepts any event in any view. The sequence lemmas therefore cover more sessions than the UI allows, and still hold.
- `alert`, `console.log` and `console.error`. The legacy submit handlers return the value they log instead.
- Markup and styling: the button component, the feature cards and the static text of the environment-variable guide.
- `ride-share-app (1).tsx`, a third variant of the shell, is not modelled. In it the selection screen is shown whenever no role is set, so its Switch Mode returns to the role choice; its dashboards' logout also clears the role.
