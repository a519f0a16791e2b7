/** The daemon as two threads whose atomic steps interleave freely. Each lock-protected block
    of Controller is one step; a backend call is a step that may answer anything its contract
    allows, or raise. The IPC thread serves one connection at a time. */
module Interleaving {
  import opened Options
  import opened NetworkState
  import opened RadioState
  import opened Controller

  /** On whose behalf `_restore_provisioning` runs; only Recovering runs without the operation lock. */
  datatype Purpose = Processing | Recovering | Reconciling

  /** The worker thread's next atomic step. */
  datatype WorkerPoint =
    | Idle
    | Taken(item: WorkItem)
    | LookingUpSaved
    | NothingSaved
    | ActivatingSaved
    | ConnectingTo(ssid: string, password: Option<string>)
    | Joined(joined: Option<string>)
    | TimedOut(reason: string)
    | RaisingAp(prior: Option<string>, purpose: Purpose)
    | ApAnswered(success: bool, apError: Option<string>, prior: Option<string>, purpose: Purpose)
    | Releasing
    | Recovery
    | Sampling
    | Sampled(mode: Mode)
    | CheckingStation
    | StationSeen(seen: Option<string>)
    | CheckingAp
    | ApLost

  datatype IpcPoint = Listening | AwaitingScan | Scanning

  datatype Holder = Free | HeldByWorker | HeldByIpc

  /** `raced`, `unknownEvent` and `apFailed` are history: a provisioning request was accepted
      during a station connection, an event outside the table was applied, and the last
      `activate_provisioning` failed or raised. */
  datatype State = State(
    core: Core,
    lock: Holder,
    worker: WorkerPoint,
    ipc: IpcPoint,
    radio: Radio,
    raced: bool,
    unknownEvent: bool,
    apFailed: bool
  )

  datatype Reply =
    | Exception
    | Answer(success: bool, ssid: Option<string>, error: Option<string>)

  datatype Request =
    | Boot
    | Connect(ssid: string, password: Option<string>)
    | Provisioning
    | Scan

  datatype Move =
    | Worker(reply: Reply, after: Radio)
    | Ipc(request: Request)

  const INITIAL :=
    State(Core(Unconfigured, None, None, None), Free, Idle, Listening,
          Radio(NeverRaised, NeverCommanded, false), false, false, false)

  /** What the backend may answer at this point, and do to the radio meanwhile. */
  predicate Allowed(s: State, reply: Reply, after: Radio) {
    match s.worker
    case RaisingAp(_, _) => ProvisioningReply(reply.Answer? && reply.success, after)
    case ActivatingSaved => StationReply(reply.Answer? && reply.success, after)
    case ConnectingTo(_, _) => StationReply(reply.Answer? && reply.success, after)
    case _ => after == s.radio
  }

  /** An exception leaves the `with self._operation_lock` block, then reaches the recovery. */
  function Thrown(s: State): State {
    s.(worker := Recovery, lock := Free)
  }

  function Apply(s: State, c: Core, known: bool, next: WorkerPoint): State {
    if known then s.(core := c, worker := next)
    else Thrown(s.(core := c, unknownEvent := true))
  }

  function Begin(item: WorkItem): WorkerPoint {
    match item
    case BootWork => LookingUpSaved
    case ConnectWork(ssid, password) => ConnectingTo(ssid, password)
    case ProvisioningWork => RaisingAp(None, Processing)
  }

  /** What an idle check of that mode begins with. */
  function Check(mode: Mode): WorkerPoint {
    match mode
    case StationConnected => CheckingStation
    case ProvisioningAp => CheckingAp
    case _ => Releasing
  }

  /** After `_restore_provisioning` returns. */
  function Returned(s: State, purpose: Purpose): State {
    if purpose == Recovering then s.(worker := Idle) else s.(worker := Releasing)
  }

  function FollowUp(s: State, c: Core, followup: Followup, reason: string, purpose: Purpose): State {
    match followup
    case Finished => Returned(s.(core := c), purpose)
    case RestoreProvisioning => s.(core := c, worker := RaisingAp(Some(reason), purpose))
    // Raised out of reconcile or the recovery itself: only the work loop's logging catches it.
    case UnknownEvent => Returned(s.(core := c, unknownEvent := true), purpose)
  }

  /** Where the backend's answer about a station leaves the worker. */
  function Concluded(reply: Reply, default: string): WorkerPoint {
    match reply
    case Exception => Recovery
    case Answer(true, ssid, _) => Joined(ssid)
    case Answer(false, _, error) => TimedOut(OrDefault(error, default))
  }

  function StationAnswer(s: State, reply: Reply, after: Radio, default: string): State {
    s.(worker := Concluded(reply, default), radio := after, lock := if reply.Exception? then Free else s.lock)
  }

  /** One step of the worker thread; a step that waits for the operation lock does nothing. */
  function WorkerStep(s: State, reply: Reply, after: Radio): State
    requires Allowed(s, reply, after)
  {
    match s.worker
    case Idle =>
      match s.core.queue {
        case Some(item) => s.(core := s.core.(queue := None), worker := Taken(item))
        case None => s.(worker := Sampling)
      }
    case Taken(item) =>
      if s.lock != Free then s else s.(lock := HeldByWorker, worker := Begin(item))
    case LookingUpSaved =>
      if reply.Exception? then Thrown(s)
      else s.(worker := if reply.success then ActivatingSaved else NothingSaved)
    case NothingSaved =>
      var (c, known) := Applied(s.core, NoSavedNetwork);
      Apply(s, c, known, RaisingAp(None, Processing))
    case ActivatingSaved => StationAnswer(s, reply, after, "saved_station_timeout")
    case ConnectingTo(_, _) => StationAnswer(s, reply, after, "station_timeout")
    case Joined(ssid) =>
      var (c, known) := StationEntered(s.core, ssid);
      Apply(s, c, known, Releasing)
    case TimedOut(reason) =>
      var (c, known) := Applied(s.core, StationTimeout);
      Apply(s, c, known, RaisingAp(Some(reason), Processing))
    case RaisingAp(prior, purpose) =>
      var success := reply.Answer? && reply.success;
      var apError := if reply.Exception? then Some(AP_ACTIVATION_FAILED) else reply.error;
      s.(worker := ApAnswered(success, apError, prior, purpose), radio := after, apFailed := !success)
    case ApAnswered(success, apError, prior, purpose) =>
      var (c, known) := ProvisioningFinished(s.core, success, apError, prior);
      if known then Returned(s.(core := c), purpose)
      else if purpose == Processing then Thrown(s.(unknownEvent := true))
      else Returned(s.(unknownEvent := true), purpose)
    case Releasing => s.(lock := Free, worker := Idle)
    case Recovery =>
      var (c, followup) := FailureRecovered(s.core);
      FollowUp(s, c, followup, OPERATION_FAILED, Recovering)
    case Sampling => s.(worker := Sampled(s.core.mode))
    case Sampled(mode) =>
      if s.lock != Free then s
      else
        s.(lock := HeldByWorker, worker := Check(mode))
    case CheckingStation =>
      s.(worker := StationSeen(if reply.Exception? then None else reply.ssid))
    case StationSeen(ssid) =>
      var (c, followup) := StationReconciled(s.core, ssid);
      FollowUp(s, c, followup, "station_connection_lost", Reconciling)
    case CheckingAp =>
      s.(worker := if reply.Answer? && reply.success then Releasing else ApLost)
    case ApLost =>
      var (c, followup) := ProvisioningReconciled(s.core);
      FollowUp(s, c, followup, "provisioning_ap_lost", Reconciling)
  }

  /** One step of the IPC thread: a queued request is one block; a scan checks the mode,
      waits for the operation lock and then calls the backend. */
  function IpcStep(s: State, request: Request): State {
    match s.ipc
    case AwaitingScan => if s.lock != Free then s else s.(lock := HeldByIpc, ipc := Scanning)
    case Scanning => s.(lock := Free, ipc := Listening)
    case Listening =>
      match request {
        case Boot => s.(core := BootRequested(s.core).0)
        case Connect(ssid, password) => s.(core := ConnectRequested(s.core, ssid, password).0)
        case Provisioning =>
          s.(core := ProvisioningAsked(s.core).0,
             raced := s.raced || (s.core.mode == StationConnecting && ProvisioningAsked(s.core).1 == Accepted))
        case Scan =>
          if s.core.mode == ProvisioningAp || s.core.mode == StationConnected
          then s.(ipc := AwaitingScan) else s
      }
  }

  function Step(s: State, move: Move): State {
    match move
    case Worker(reply, after) => if Allowed(s, reply, after) then WorkerStep(s, reply, after) else s
    case Ipc(request) => IpcStep(s, request)
  }

  function Run(s: State, moves: seq<Move>): State {
    if moves == [] then s else Step(Run(s, moves[..|moves| - 1]), moves[|moves| - 1])
  }
}
