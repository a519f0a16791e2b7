/** The controller's data and its lock-protected blocks as functions on that data. */
module Controller {
  import opened Options
  import opened NetworkState

  datatype WorkItem =
    | BootWork
    | ConnectWork(ssid: string, password: Option<string>)
    | ProvisioningWork

  /** The fields `_lock` protects, with the one-slot queue. */
  datatype Core = Core(mode: Mode, ssid: Option<string>, error: Option<string>, queue: Option<WorkItem>)

  /** How a request ends: RuntimeError("network_transition_busy") is Busy, ValueError is Invalid. */
  datatype Verdict = Accepted | Unchanged | Busy | Invalid

  const OPERATION_FAILED := "network_operation_failed"
  const AP_ACTIVATION_FAILED := "ap_activation_failed"

  /** Python's `error or default`: an empty string counts as absent. */
  function OrDefault(error: Option<string>, default: string): string {
    if error.Some? && error.value != "" then error.value else default
  }

  // The blocks. Each returns the new data and whether the block's event was in the table.

  function Enqueued(c: Core, item: WorkItem, event: Event): (Core, Verdict) {
    match Next(c.mode, event)
    case None => (c, Invalid)
    case Some(next) =>
      if c.queue.Some? then (c, Busy) else (c.(mode := next, queue := Some(item)), Accepted)
  }

  function BootRequested(c: Core): (Core, Verdict) {
    Enqueued(c, BootWork, Boot)
  }

  function ConnectRequested(c: Core, ssid: string, password: Option<string>): (Core, Verdict) {
    var (c', verdict) := Enqueued(c, ConnectWork(ssid, password), StationRequested);
    (if verdict == Accepted then c'.(error := None) else c', verdict)
  }

  function ProvisioningAsked(c: Core): (Core, Verdict) {
    if c.mode == ProvisioningAp then (c, Unchanged)
    else
      var (c', verdict) := Enqueued(c, ProvisioningWork, ProvisioningRequested);
      (if verdict == Accepted then c'.(error := None) else c', verdict)
  }

  function Applied(c: Core, event: Event): (Core, bool) {
    match Next(c.mode, event)
    case None => (c, false)
    case Some(next) => (c.(mode := next), true)
  }

  function StationEntered(c: Core, ssid: Option<string>): (Core, bool) {
    var (c', known) := Applied(c, StationJoined);
    (if known then c'.(ssid := ssid, error := None) else c, known)
  }

  function ProvisioningFinished(c: Core, success: bool, apError: Option<string>, prior: Option<string>)
    : (Core, bool)
  {
    var (c', known) := Applied(c, if success then ApReady else ApFailed);
    if !known then (c, false)
    else if success then (c'.(ssid := None, error := prior), true)
    else (c'.(ssid := None, error := Some(OrDefault(apError, AP_ACTIVATION_FAILED))), true)
  }

  /** What is left to do after an idle check or a recovery block. */
  datatype Followup = Finished | RestoreProvisioning | UnknownEvent

  function StationReconciled(c: Core, ssid: Option<string>): (Core, Followup) {
    if c.mode != StationConnected then (c, Finished)
    else if ssid.Some? then (c.(ssid := ssid), Finished)
    else
      var (c', known) := Applied(c, StationTimeout);
      (c', if known then RestoreProvisioning else UnknownEvent)
  }

  function ProvisioningReconciled(c: Core): (Core, Followup) {
    if c.mode != ProvisioningAp then (c, Finished)
    else
      var (c', known) := Applied(c, ProvisioningRequested);
      (c', if known then RestoreProvisioning else UnknownEvent)
  }

  function FailureRecovered(c: Core): (Core, Followup) {
    if c.mode == StationConnecting then
      var (c', known) := Applied(c, StationTimeout);
      (c', if known then RestoreProvisioning else UnknownEvent)
    else if c.mode != Transition then
      (c.(mode := Error, ssid := None, error := Some(OPERATION_FAILED)), Finished)
    else (c, RestoreProvisioning)
  }
}
