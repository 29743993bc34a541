/**
 * The driver dashboard: the ride-offer draft, the connectivity gate, the
 * `checkConnection` and `handleRideOffer` handlers and the render choice.
 *
 * `DriverDashboard` is the component with its state fields updated in place;
 * `Step` and `Run` are the same handlers as functions on a state value, used
 * to state what holds over any sequence of user events.
 */
module Driver {
  import opened Wrappers
  import opened Connectivity
  import opened Drafts

  const OffersTable := "ride_offers"
  const OfferFailedError := "Failed to save ride offer. Please try again."

  /** The row `handleRideOffer` inserts: the draft, column by column. */
  function OfferRow(d: RideOffer): (row: Row)
    ensures row.Keys == {"start_location", "end_location", "departure_time", "available_seats"}
    ensures row["start_location"] == Text(d.startLocation) && row["end_location"] == Text(d.endLocation)
    ensures row["departure_time"] == Text(d.departureTime) && row["available_seats"] == Integer(d.availableSeats)
  {
    map[
      "start_location" := Text(d.startLocation),
      "end_location" := Text(d.endLocation),
      "departure_time" := Text(d.departureTime),
      "available_seats" := Integer(d.availableSeats)]
  }

  /** The row carries the whole draft: two drafts with the same row are the same draft. */
  lemma OfferRowInjective(d1: RideOffer, d2: RideOffer)
    requires OfferRow(d1) == OfferRow(d2)
    ensures d1 == d2
  {
  }

  datatype DriverState = DriverState(gate: Gate, rideOffer: RideOffer)

  const Initial := DriverState(InitialGate, EmptyOffer)

  /** What the dashboard renders. */
  function View(s: DriverState): (v: View)
    ensures v != EnvGuide
    ensures v == Checking <==> !Checked(s.gate)
  {
    GateView(s.gate.networkConnected, s.gate.isConnected)
  }

  /** The user events the dashboard reacts to: a (re)check, a post, a keystroke in one input. */
  datatype Event =
    | Check(networkStatus: bool, backendStatus: bool)
    | PostRide(insertOk: bool)
    | Edit(edit: OfferEdit)

  function Step(s: DriverState, e: Event): After<DriverState> {
    match e
    case Check(n, b) =>
      var r := CheckGate(s.gate, n, b);
      After(s.(gate := r.state), r.calls)
    case PostRide(ok) =>
      var r := SubmitGate(s.gate, OffersTable, OfferRow(s.rideOffer), OfferFailedError, ok);
      After(s.(gate := r.state), r.calls)
    case Edit(d) =>
      After(s.(rideOffer := EditOffer(s.rideOffer, d)), [])
  }

  /** The state after a sequence of events, with every remote call made on the way. */
  function Run(s: DriverState, events: seq<Event>): After<DriverState>
    decreases |events|
  {
    if events == [] then After(s, [])
    else
      var first := Step(s, events[0]);
      var rest := Run(first.state, events[1..]);
      After(rest.state, first.calls + rest.calls)
  }

  /** The edits among a sequence of events, in order. */
  function Edits(events: seq<Event>): seq<OfferEdit>
    decreases |events|
  {
    if events == [] then []
    else if events[0].Edit? then [events[0].edit] + Edits(events[1..])
    else Edits(events[1..])
  }

  /** An event that leaves the dashboard connected to the backend. */
  predicate Connects(e: Event) {
    e.Check? && e.networkStatus && e.backendStatus
  }

  /** Once a check has completed, the Checking view never comes back, whatever happens next. */
  lemma {:induction false} CheckingNeverReturns(s: DriverState, events: seq<Event>)
    requires Checked(s.gate)
    ensures Checked(Run(s, events).state.gate)
    ensures View(Run(s, events).state) != Checking
    decreases |events|
  {
    if events != [] {
      CheckingNeverReturns(Step(s, events[0]).state, events[1..]);
    }
  }

  /** Until a check finds both the network and the backend up, no insert is ever made. */
  lemma {:induction false} NoInsertUntilConnected(s: DriverState, events: seq<Event>)
    requires s.gate.isConnected != Some(true)
    requires forall i :: 0 <= i < |events| ==> !Connects(events[i])
    ensures NoInserts(Run(s, events).calls)
    ensures Run(s, events).state.gate.isConnected != Some(true)
    decreases |events|
  {
    if events != [] {
      var first := Step(s, events[0]);
      NoInsertUntilConnected(first.state, events[1..]);
      assert NoInserts(first.calls);
    }
  }

  /** Every probe and every insert, in any session, is issued behind the loading flag with no error shown. */
  lemma {:induction false} CallsIssuedWhileLoading(s: DriverState, events: seq<Event>)
    ensures IssuedWhileLoading(Run(s, events).calls)
    decreases |events|
  {
    if events != [] {
      var first := Step(s, events[0]);
      CallsIssuedWhileLoading(first.state, events[1..]);
      assert IssuedWhileLoading(first.calls);
    }
  }

  /** Checking and posting never touch the draft: it is exactly the result of the edits. */
  lemma {:induction false} DraftIsEdits(s: DriverState, events: seq<Event>)
    ensures Run(s, events).state.rideOffer == EditOffers(s.rideOffer, Edits(events))
    decreases |events|
  {
    if events != [] {
      DraftIsEdits(Step(s, events[0]).state, events[1..]);
    }
  }

  /** Between events the dashboard is never left loading. */
  lemma {:induction false} NeverLeftLoading(s: DriverState, events: seq<Event>)
    requires !s.gate.isLoading
    ensures !Run(s, events).state.gate.isLoading
    decreases |events|
  {
    if events != [] {
      NeverLeftLoading(Step(s, events[0]).state, events[1..]);
    }
  }

  /** The dashboard component, its state fields updated in place by its handlers. */
  class DriverDashboard {
    var rideOffer: RideOffer
    var error: Option<string>
    var isLoading: bool
    var isConnected: Option<bool>
    var networkConnected: Option<bool>
    /** Every remote call the component has made. */
    ghost var calls: seq<Call>

    function State(): DriverState
      reads this
    {
      DriverState(Gate(networkConnected, isConnected, error, isLoading), rideOffer)
    }

    /** The state on mount, before the mount-time check. */
    constructor ()
      ensures State() == Initial && calls == []
    {
      rideOffer := EmptyOffer;
      error := None;
      isLoading := false;
      isConnected := None;
      networkConnected := None;
      calls := [];
    }

    /** `checkConnection`, run on mount and by the Retry buttons, given the two probe outcomes. */
    method CheckConnection(networkStatus: bool, backendStatus: bool)
      modifies this
      ensures var r := CheckGate(old(State()).gate, networkStatus, backendStatus);
              State() == old(State()).(gate := r.state) && calls == old(calls) + r.calls
      ensures State() == Step(old(State()), Check(networkStatus, backendStatus)).state
    {
      isLoading := true;
      error := None;
      calls := calls + [Call(NetworkProbe, isLoading, error)];
      networkConnected := Some(networkStatus);
      if !networkStatus {
        error := Some(NoInternetError);
        isConnected := Some(false);
        isLoading := false;
        return;
      }
      calls := calls + [Call(BackendProbe, isLoading, error)];
      isConnected := Some(backendStatus);
      if !backendStatus {
        error := Some(DatabaseError);
      }
      isLoading := false;
    }

    /** `handleRideOffer`, given the outcome of the insert. */
    method HandleRideOffer(insertOk: bool)
      modifies this
      ensures var r := SubmitGate(old(State()).gate, OffersTable, OfferRow(old(rideOffer)), OfferFailedError, insertOk);
              State() == old(State()).(gate := r.state) && calls == old(calls) + r.calls
      ensures State() == Step(old(State()), PostRide(insertOk)).state
      ensures rideOffer == old(rideOffer)
      ensures old(isConnected) != Some(true) ==> calls == old(calls)
      ensures old(isConnected) == Some(true) ==>
                calls == old(calls) + [Call(Insert(OffersTable, OfferRow(rideOffer)), true, None)]
    {
      if isConnected != Some(true) {
        error := Some(DatabaseError);
        return;
      }
      isLoading := true;
      error := None;
      calls := calls + [Call(Insert(OffersTable, OfferRow(rideOffer)), isLoading, error)];
      if !insertOk {
        error := Some(OfferFailedError);
      }
      isLoading := false;
    }

    /** The `onChange` handler of one input. */
    method EditRideOffer(e: OfferEdit)
      modifies this
      ensures State() == old(State()).(rideOffer := EditOffer(old(rideOffer), e))
      ensures calls == old(calls)
    {
      rideOffer := EditOffer(rideOffer, e);
    }
  }
}
