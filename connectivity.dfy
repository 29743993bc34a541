/**
 * The connectivity gate shared by the rider and the driver dashboard: two
 * tri-state flags, the error banner and the loading flag, the two-step
 * reachability check, the guarded insert, and the choice of what the
 * dashboard renders.  Both dashboards contain the same code for these; it is
 * defined once here and used by both.
 *
 * The network probe, the backend probe and the insert are remote calls; the
 * model takes their outcomes as parameters and records every call it makes
 * in a log of `Call`s, each stamped with the loading flag and the error
 * banner visible at the moment of the call.
 */
module Connectivity {
  import opened Wrappers

  const NoInternetError := "No internet connection. Please check your network settings."
  const DatabaseError := "Unable to connect to the database. Please try again later."

  /** What a dashboard renders. `EnvGuide` is only used by the rider dashboard. */
  datatype View = Checking | NetworkDown | BackendDown | Form | EnvGuide

  /** The connectivity part of a dashboard's state. */
  datatype Gate = Gate(
    networkConnected: Option<bool>,
    isConnected: Option<bool>,
    error: Option<string>,
    isLoading: bool)

  /** The state on mount: both flags unknown, no error, not loading. */
  const InitialGate := Gate(None, None, None, false)

  /** A value sent in one column of an inserted row. */
  datatype Column = Text(text: string) | Integer(number: int)

  /** An inserted row: column name to value. */
  type Row = map<string, Column>

  /** The remote requests a dashboard can make. */
  datatype Request = NetworkProbe | BackendProbe | Insert(table: string, row: Row)

  /** One remote call, with the loading flag and error banner shown while it was issued. */
  datatype Call = Call(request: Request, isLoading: bool, error: Option<string>)

  /** A new state together with the remote calls made to reach it, in order. */
  datatype After<S> = After(state: S, calls: seq<Call>)

  /** Both flags are known: a check has completed. */
  predicate Checked(g: Gate) {
    g.networkConnected.Some? && g.isConnected.Some?
  }

  /**
   * The view chosen by the chain of early returns of a dashboard's render:
   * a total function of the two flags with exactly one of four outcomes.
   */
  function GateView(networkConnected: Option<bool>, isConnected: Option<bool>): (v: View)
    ensures v != EnvGuide
    ensures v == Checking <==> networkConnected.None? || isConnected.None?
    ensures v == NetworkDown <==> networkConnected == Some(false) && isConnected.Some?
    ensures v == BackendDown <==> networkConnected == Some(true) && isConnected == Some(false)
    ensures v == Form <==> networkConnected == Some(true) && isConnected == Some(true)
  {
    if isConnected.None? || networkConnected.None? then Checking
    else if !networkConnected.value then NetworkDown
    else if !isConnected.value then BackendDown
    else Form
  }

  /**
   * One run of `checkConnection` given the two probe outcomes.  The loading
   * flag is raised and the error cleared before the network probe; when the
   * network probe fails the backend probe is never issued.
   */
  function CheckGate(g: Gate, networkStatus: bool, backendStatus: bool): (r: After<Gate>)
    ensures r.state.networkConnected == Some(networkStatus)
    ensures r.state.isConnected == Some(networkStatus && backendStatus)
    ensures !r.state.isLoading && Checked(r.state)
    ensures !networkStatus ==> r.state.error == Some(NoInternetError)
    ensures networkStatus ==> r.state.error == (if backendStatus then None else Some(DatabaseError))
    ensures r.calls ==
              [Call(NetworkProbe, true, None)] +
              (if networkStatus then [Call(BackendProbe, true, None)] else [])
    ensures GateView(r.state.networkConnected, r.state.isConnected) ==
              if !networkStatus then NetworkDown else if !backendStatus then BackendDown else Form
  {
    var starting := g.(isLoading := true, error := None);
    var probed := starting.(networkConnected := Some(networkStatus));
    var networkCall := Call(NetworkProbe, starting.isLoading, starting.error);
    if !networkStatus then
      After(probed.(error := Some(NoInternetError), isConnected := Some(false), isLoading := false),
            [networkCall])
    else
      var connected := probed.(isConnected := Some(backendStatus));
      var reported := if backendStatus then connected else connected.(error := Some(DatabaseError));
      After(reported.(isLoading := false),
            [networkCall, Call(BackendProbe, probed.isLoading, probed.error)])
  }

  /**
   * One run of a dashboard's submit handler given the insert outcome: refused
   * with the database error unless `isConnected` is true; otherwise exactly one
   * insert of `row` into `table`, made while loading with the error cleared.
   */
  function SubmitGate(g: Gate, table: string, row: Row, failure: string, insertOk: bool): (r: After<Gate>)
    ensures r.state.networkConnected == g.networkConnected && r.state.isConnected == g.isConnected
    ensures g.isConnected != Some(true) ==>
              r.calls == [] && r.state.error == Some(DatabaseError) && r.state.isLoading == g.isLoading
    ensures g.isConnected == Some(true) ==>
              r.calls == [Call(Insert(table, row), true, None)] && !r.state.isLoading &&
              r.state.error == (if insertOk then None else Some(failure))
  {
    if g.isConnected != Some(true) then
      After(g.(error := Some(DatabaseError)), [])
    else
      var pending := g.(isLoading := true, error := None);
      var settled := if insertOk then pending else pending.(error := Some(failure));
      After(settled.(isLoading := false), [Call(Insert(table, row), pending.isLoading, pending.error)])
  }

  /** No call in the log is an insert. */
  predicate NoInserts(calls: seq<Call>) {
    forall i :: 0 <= i < |calls| ==> !calls[i].request.Insert?
  }

  /** Every call in the log was issued behind the loading flag with the error banner cleared. */
  predicate IssuedWhileLoading(calls: seq<Call>) {
    forall i :: 0 <= i < |calls| ==> calls[i].isLoading && calls[i].error == None
  }

  /** A retry after a failed network probe runs the whole sequence again, both probes included. */
  lemma RetryRunsBothProbes(g: Gate)
    ensures var down := CheckGate(g, false, true);
            var up := CheckGate(down.state, true, true);
            GateView(down.state.networkConnected, down.state.isConnected) == NetworkDown &&
            GateView(up.state.networkConnected, up.state.isConnected) == Form &&
            down.calls + up.calls ==
              [Call(NetworkProbe, true, None), Call(NetworkProbe, true, None), Call(BackendProbe, true, None)]
  {
  }
}
