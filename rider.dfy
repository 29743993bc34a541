/**
 * The rider dashboard: the ride-search draft, the connectivity gate, the
 * environment-configuration flag, the `checkConnection` and
 * `handleRideSearch` handlers and the render choice.
 *
 * `RiderDashboard` is the component with its state fields updated in place;
 * `Step` and `Run` are the same handlers as functions on a state value.
 * Whether the two backend settings are present in the environment is
 * fixed for the whole session: a `Config` given to the component once.
 */
module Rider {
  import opened Wrappers
  import opened Connectivity
  import opened Drafts

  const SearchesTable := "ride_searches"
  const SearchFailedError := "Failed to save ride search. Please try again."

  /** The row `handleRideSearch` inserts: the draft, column by column. */
  function SearchRow(d: RideSearch): (row: Row)
    ensures row.Keys == {"start_location", "end_location", "preferred_time"}
    ensures row["start_location"] == Text(d.startLocation) && row["end_location"] == Text(d.endLocation)
    ensures row["preferred_time"] == Text(d.preferredTime)
  {
    map[
      "start_location" := Text(d.startLocation),
      "end_location" := Text(d.endLocation),
      "preferred_time" := Text(d.preferredTime)]
  }

  /** The row carries the whole draft: two drafts with the same row are the same draft. */
  lemma SearchRowInjective(d1: RideSearch, d2: RideSearch)
    requires SearchRow(d1) == SearchRow(d2)
    ensures d1 == d2
  {
  }

  /**
   * Whether the backend URL and the access key are each set to a non-empty
   * value in the environment; an empty value counts as missing.
   */
  datatype Config = Config(urlSet: bool, keySet: bool)

  /** `!URL || !KEY`: a setting is missing. */
  predicate Missing(env: Config) {
    !env.urlSet || !env.keySet
  }

  datatype RiderState = RiderState(gate: Gate, rideSearch: RideSearch, envVarsMissing: bool)

  const Initial := RiderState(InitialGate, EmptySearch, false)

  /** What the dashboard renders: the configuration guide takes priority over every other view. */
  function View(s: RiderState): (v: View)
    ensures v == EnvGuide <==> s.envVarsMissing
    ensures !s.envVarsMissing ==> v == GateView(s.gate.networkConnected, s.gate.isConnected)
  {
    if s.envVarsMissing then EnvGuide
    else GateView(s.gate.networkConnected, s.gate.isConnected)
  }

  /**
   * One run of `checkConnection`.  The configuration flag is written after the
   * backend probe, so a failed network probe returns before it and leaves it as it was.
   */
  function CheckConnectionStep(s: RiderState, env: Config, networkStatus: bool, backendStatus: bool)
    : (r: After<RiderState>)
    ensures var g := CheckGate(s.gate, networkStatus, backendStatus);
            r.state.gate == g.state && r.calls == g.calls
    ensures r.state.rideSearch == s.rideSearch
    ensures r.state.envVarsMissing == if networkStatus then Missing(env) else s.envVarsMissing
  {
    var g := CheckGate(s.gate, networkStatus, backendStatus);
    if !networkStatus then
      After(s.(gate := g.state), g.calls)
    else
      After(s.(gate := g.state, envVarsMissing := Missing(env)), g.calls)
  }

  /** The user events the dashboard reacts to: a (re)check, a search, a keystroke in one input. */
  datatype Event =
    | Check(networkStatus: bool, backendStatus: bool)
    | SearchRides(insertOk: bool)
    | Edit(edit: SearchEdit)

  function Step(s: RiderState, env: Config, e: Event): After<RiderState> {
    match e
    case Check(n, b) => CheckConnectionStep(s, env, n, b)
    case SearchRides(ok) =>
      var r := SubmitGate(s.gate, SearchesTable, SearchRow(s.rideSearch), SearchFailedError, ok);
      After(s.(gate := r.state), r.calls)
    case Edit(d) =>
      After(s.(rideSearch := EditSearch(s.rideSearch, d)), [])
  }

  /** The state after a sequence of events in one session, with every remote call made on the way. */
  function Run(s: RiderState, env: Config, events: seq<Event>): After<RiderState>
    decreases |events|
  {
    if events == [] then After(s, [])
    else
      var first := Step(s, env, events[0]);
      var rest := Run(first.state, env, events[1..]);
      After(rest.state, first.calls + rest.calls)
  }

  /** The edits among a sequence of events, in order. */
  function Edits(events: seq<Event>): seq<SearchEdit>
    decreases |events|
  {
    if events == [] then []
    else if events[0].Edit? then [events[0].edit] + Edits(events[1..])
    else Edits(events[1..])
  }

  /** An event that leaves the dashboard connected to the backend. */
  predicate Connects(e: Event) {
    e.Check? && e.networkStatus && e.backendStatus
  }

  /** A check whose network probe succeeds, the only kind that reaches the configuration test. */
  predicate ReachesNetwork(e: Event) {
    e.Check? && e.networkStatus
  }

  /** While every network probe fails, the configuration flag keeps its value. */
  lemma {:induction false} EnvFlagNeedsNetwork(s: RiderState, env: Config, events: seq<Event>)
    requires forall i :: 0 <= i < |events| ==> !ReachesNetwork(events[i])
    ensures Run(s, env, events).state.envVarsMissing == s.envVarsMissing
    decreases |events|
  {
    if events != [] {
      EnvFlagNeedsNetwork(Step(s, env, events[0]).state, env, events[1..]);
    }
  }

  /** Starting from mount, the guide cannot appear while every network probe fails. */
  lemma {:induction false} NoEnvGuideWithoutNetwork(env: Config, events: seq<Event>)
    requires forall i :: 0 <= i < |events| ==> !ReachesNetwork(events[i])
    ensures View(Run(Initial, env, events).state) != EnvGuide
  {
    EnvFlagNeedsNetwork(Initial, env, events);
  }

  /** The configuration flag is only ever set when a setting really is missing. */
  lemma {:induction false} EnvFlagIsTrue(s: RiderState, env: Config, events: seq<Event>)
    requires s.envVarsMissing ==> Missing(env)
    ensures Run(s, env, events).state.envVarsMissing ==> Missing(env)
    decreases |events|
  {
    if events != [] {
      EnvFlagIsTrue(Step(s, env, events[0]).state, env, events[1..]);
    }
  }

  /** With a setting missing, a set configuration flag stays set: later checks can only set it again. */
  lemma {:induction false} EnvFlagStaysSet(s: RiderState, env: Config, events: seq<Event>)
    requires s.envVarsMissing && Missing(env)
    ensures Run(s, env, events).state.envVarsMissing
    decreases |events|
  {
    if events != [] {
      EnvFlagStaysSet(Step(s, env, events[0]).state, env, events[1..]);
    }
  }

  /** Once the configuration guide has appeared in a session, it is shown for the rest of it. */
  lemma EnvGuideStaysShown(env: Config, before: seq<Event>, after: seq<Event>)
    requires View(Run(Initial, env, before).state) == EnvGuide
    ensures View(Run(Run(Initial, env, before).state, env, after).state) == EnvGuide
  {
    EnvFlagIsTrue(Initial, env, before);
    EnvFlagStaysSet(Run(Initial, env, before).state, env, after);
  }

  /** Once a check has completed, the Checking view never comes back, whatever happens next. */
  lemma {:induction false} CheckingNeverReturns(s: RiderState, env: Config, events: seq<Event>)
    requires Checked(s.gate)
    ensures Checked(Run(s, env, events).state.gate)
    ensures View(Run(s, env, events).state) != Checking
    decreases |events|
  {
    if events != [] {
      CheckingNeverReturns(Step(s, env, events[0]).state, env, events[1..]);
    }
  }

  /** Until a check finds both the network and the backend up, nothing is inserted into `ride_searches`. */
  lemma {:induction false} NoInsertUntilConnected(s: RiderState, env: Config, events: seq<Event>)
    requires s.gate.isConnected != Some(true)
    requires forall i :: 0 <= i < |events| ==> !Connects(events[i])
    ensures NoInserts(Run(s, env, events).calls)
    ensures Run(s, env, events).state.gate.isConnected != Some(true)
    decreases |events|
  {
    if events != [] {
      var first := Step(s, env, events[0]);
      NoInsertUntilConnected(first.state, env, events[1..]);
      assert NoInserts(first.calls);
    }
  }

  /** Checking and searching never touch the draft: it is exactly the result of the edits. */
  lemma {:induction false} DraftIsEdits(s: RiderState, env: Config, events: seq<Event>)
    ensures Run(s, env, events).state.rideSearch == EditSearches(s.rideSearch, Edits(events))
    decreases |events|
  {
    if events != [] {
      DraftIsEdits(Step(s, env, events[0]).state, env, events[1..]);
    }
  }

  /** The dashboard component, its state fields updated in place by its handlers. */
  class RiderDashboard {
    var rideSearch: RideSearch
    var error: Option<string>
    var isLoading: bool
    var isConnected: Option<bool>
    var networkConnected: Option<bool>
    var envVarsMissing: bool
    /** The environment the component reads; it does not change during a session. */
    const env: Config
    /** Every remote call the component has made. */
    ghost var calls: seq<Call>

    function State(): RiderState
      reads this
    {
      RiderState(Gate(networkConnected, isConnected, error, isLoading), rideSearch, envVarsMissing)
    }

    /** The state on mount, before the mount-time check, in the given environment. */
    constructor (env: Config)
      ensures State() == Initial && this.env == env && calls == []
    {
      this.env := env;
      rideSearch := EmptySearch;
      error := None;
      isLoading := false;
      isConnected := None;
      networkConnected := None;
      envVarsMissing := false;
      calls := [];
    }

    /** `checkConnection`, run on mount and by the Retry buttons, given the two probe outcomes. */
    method CheckConnection(networkStatus: bool, backendStatus: bool)
      modifies this
      ensures var r := CheckConnectionStep(old(State()), env, networkStatus, backendStatus);
              State() == r.state && calls == old(calls) + r.calls
      ensures State() == Step(old(State()), env, Check(networkStatus, backendStatus)).state
      ensures !networkStatus ==> envVarsMissing == old(envVarsMissing) && calls == old(calls) + [Call(NetworkProbe, true, None)]
    {
      isLoading := true;
      error := None;
      calls := calls + [Call(NetworkProbe, isLoading, error)];
      networkConnected := Some(networkStatus);
      if !networkStatus {
        error := Some(NoInternetError);
        isConnected := Some(false);
        isLoading := false;
        return;
      }
      calls := calls + [Call(BackendProbe, isLoading, error)];
      isConnected := Some(backendStatus);
      if !backendStatus {
        error := Some(DatabaseError);
      }
      isLoading := false;
      envVarsMissing := Missing(env);
    }

    /** `handleRideSearch`, given the outcome of the insert. */
    method HandleRideSearch(insertOk: bool)
      modifies this
      ensures var r := SubmitGate(old(State()).gate, SearchesTable, SearchRow(old(rideSearch)), SearchFailedError, insertOk);
              State() == old(State()).(gate := r.state) && calls == old(calls) + r.calls
      ensures State() == Step(old(State()), env, SearchRides(insertOk)).state
      ensures old(isConnected) != Some(true) ==> calls == old(calls)
      ensures old(isConnected) == Some(true) ==>
                calls == old(calls) + [Call(Insert(SearchesTable, SearchRow(rideSearch)), true, None)]
    {
      if isConnected != Some(true) {
        error := Some(DatabaseError);
        return;
      }
      isLoading := true;
      error := None;
      calls := calls + [Call(Insert(SearchesTable, SearchRow(rideSearch)), isLoading, error)];
      if !insertOk {
        error := Some(SearchFailedError);
      }
      isLoading := false;
    }

    /** The `onChange` handler of one input. */
    method EditRideSearch(e: SearchEdit)
      modifies this
      ensures State() == old(State()).(rideSearch := EditSearch(old(rideSearch), e))
      ensures calls == old(calls)
    {
      rideSearch := EditSearch(rideSearch, e);
    }
  }
}
