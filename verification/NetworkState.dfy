/** The management-network modes, events and the fixed transition table. */
module NetworkState {
  import opened Options

  datatype Mode =
    | Unconfigured
    | StationConnecting
    | StationConnected
    | ProvisioningAp
    | Transition
    | Error

  datatype Event =
    | Boot
    | NoSavedNetwork
    | StationRequested
    | StationJoined
    | StationTimeout
    | ProvisioningRequested
    | ApReady
    | ApFailed

  /** `None` is the source's ValueError: the pair is not in the table. */
  function Next(current: Mode, event: Event): Option<Mode> {
    match (current, event)
    case (Unconfigured, Boot) => Some(StationConnecting)
    case (StationConnecting, NoSavedNetwork) => Some(Transition)
    case (StationConnecting, StationJoined) => Some(StationConnected)
    case (StationConnecting, StationTimeout) => Some(Transition)
    case (StationConnecting, ProvisioningRequested) => Some(Transition)
    case (StationConnected, StationRequested) => Some(Transition)
    case (StationConnected, ProvisioningRequested) => Some(Transition)
    case (StationConnected, StationTimeout) => Some(Transition)
    case (ProvisioningAp, StationRequested) => Some(Transition)
    case (ProvisioningAp, ProvisioningRequested) => Some(Transition)
    case (Transition, StationJoined) => Some(StationConnected)
    case (Transition, StationTimeout) => Some(Transition)
    case (Transition, ApReady) => Some(ProvisioningAp)
    case (Transition, ApFailed) => Some(Error)
    case (Error, Boot) => Some(StationConnecting)
    case (Error, ProvisioningRequested) => Some(Transition)
    case _ => None
  }

  /** A mode the daemon may not rest in: some work still owes a decision. */
  predicate Unsettled(mode: Mode) {
    mode == StationConnecting || mode == Transition
  }
}
