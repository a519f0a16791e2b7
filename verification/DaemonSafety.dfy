/** What every interleaving of the two threads keeps: the daemon is never stranded, backend
    calls never overlap, the radio agrees with the mode, and exactly the accepted race breaks
    the stronger accounting. */
module DaemonSafety {
  import opened Options
  import opened NetworkState
  import opened RadioState
  import opened Controller
  import opened Interleaving

  /** The worker holds an item, or an exception from one, that will still settle the mode. */
  predicate Carrying(w: WorkerPoint) {
    w.Taken? || w.LookingUpSaved? || w.NothingSaved? || w.ActivatingSaved? || w.ConnectingTo? || w.Joined?
    || w.TimedOut? || w.RaisingAp? || w.ApAnswered? || w.Recovery?
  }

  /** The worker is inside `with self._operation_lock`. */
  predicate Inside(w: WorkerPoint) {
    if Restoring(w) then w.purpose != Recovering
    else !(w.Idle? || w.Taken? || w.Recovery? || w.Sampling? || w.Sampled?)
  }

  /** The worker has called the backend, or is about to with nothing left to wait for. */
  predicate CallingBackend(w: WorkerPoint) {
    w.LookingUpSaved? || w.ActivatingSaved? || w.ConnectingTo? || w.RaisingAp? || w.CheckingStation?
    || w.CheckingAp?
  }

  predicate Restoring(w: WorkerPoint) {
    w.RaisingAp? || w.ApAnswered?
  }

  /** The access point, its DHCP service and the saved station are what the mode says. */
  predicate Agrees(s: State) {
    && (s.core.mode == ProvisioningAp ==> s.radio == Radio(Raised, Started, false))
    && (s.core.mode == StationConnected ==> s.radio.joined && s.radio.dhcp == Stopped)
  }

  /** Agreement, carried from the backend's answer to the block that records it. */
  predicate RadioFits(s: State) {
    && (s.worker.Joined? ==> s.radio.joined && s.radio.dhcp == Stopped)
    && (s.worker.ApAnswered? ==> s.worker.success == !s.apFailed)
    && (s.worker.ApAnswered? && s.worker.success ==> s.radio == Radio(Raised, Started, false))
    && (s.worker.Taken? || !Carrying(s.worker) ==> Agrees(s))
  }

  predicate Inv(s: State) {
    && (Unsettled(s.core.mode) ==> s.core.queue.Some? || Carrying(s.worker))
    && (Restoring(s.worker) && s.worker.purpose != Processing ==> s.core.mode == Transition)
    && (s.lock == HeldByWorker <==> Inside(s.worker))
    && (s.lock == HeldByIpc <==> s.ipc == Scanning)
    && (s.ipc != Listening && Unsettled(s.core.mode) ==>
          s.core.mode == Transition && Restoring(s.worker) && s.worker.purpose != Recovering)
    && RadioFits(s)
  }

  lemma {:induction false} IpcKeepsInv(s: State, request: Request)
    requires Inv(s)
    ensures Inv(IpcStep(s, request))
  {
  }

  /** The worker is connecting to a station, or is about to record how that ended. */
  predicate Associating(w: WorkerPoint) {
    w.ActivatingSaved? || w.ConnectingTo? || w.Joined? || w.TimedOut?
  }

  lemma {:induction false} AssociatingKeepsInv(s: State, reply: Reply, after: Radio)
    requires Inv(s) && Allowed(s, reply, after) && Associating(s.worker)
    ensures Inv(WorkerStep(s, reply, after))
  {
  }

  lemma {:induction false} ProcessingKeepsInv(s: State, reply: Reply, after: Radio)
    requires Inv(s) && Allowed(s, reply, after)
    requires Carrying(s.worker) && !Restoring(s.worker) && !Associating(s.worker)
    ensures Inv(WorkerStep(s, reply, after))
  {
  }

  lemma {:induction false} RestoringKeepsInv(s: State, reply: Reply, after: Radio)
    requires Inv(s) && Allowed(s, reply, after) && Restoring(s.worker)
    ensures Inv(WorkerStep(s, reply, after))
  {
  }

  /** The worker is between items: taking one, or reconciling. */
  predicate Checking(w: WorkerPoint) {
    w.CheckingStation? || w.StationSeen? || w.CheckingAp? || w.ApLost?
  }

  lemma {:induction false} StationCheckKeepsInv(s: State, reply: Reply, after: Radio)
    requires Inv(s) && Allowed(s, reply, after) && (s.worker.CheckingStation? || s.worker.StationSeen?)
    ensures Inv(WorkerStep(s, reply, after))
  {
  }

  lemma {:induction false} ApCheckKeepsInv(s: State, reply: Reply, after: Radio)
    requires Inv(s) && Allowed(s, reply, after) && (s.worker.CheckingAp? || s.worker.ApLost?)
    ensures Inv(WorkerStep(s, reply, after))
  {
  }

  lemma {:induction false} WaitingKeepsInv(s: State, reply: Reply, after: Radio)
    requires Inv(s) && Allowed(s, reply, after) && !Carrying(s.worker) && !Checking(s.worker)
    ensures Inv(WorkerStep(s, reply, after))
  {
  }

  lemma {:induction false} StepKeepsInv(s: State, move: Move)
    requires Inv(s)
    ensures Inv(Step(s, move))
  {
    match move {
      case Ipc(request) => IpcKeepsInv(s, request);
      case Worker(reply, after) =>
        if Allowed(s, reply, after) {
          if s.worker.CheckingStation? || s.worker.StationSeen? {
            StationCheckKeepsInv(s, reply, after);
          } else if s.worker.CheckingAp? || s.worker.ApLost? {
            ApCheckKeepsInv(s, reply, after);
          } else if !Carrying(s.worker) {
            WaitingKeepsInv(s, reply, after);
          } else if Restoring(s.worker) {
            RestoringKeepsInv(s, reply, after);
          } else if Associating(s.worker) {
            AssociatingKeepsInv(s, reply, after);
          } else {
            ProcessingKeepsInv(s, reply, after);
          }
        }
    }
  }

  lemma {:induction false} RunKeepsInv(moves: seq<Move>)
    ensures Inv(Run(INITIAL, moves))
  {
    if moves != [] {
      RunKeepsInv(moves[..|moves| - 1]);
      StepKeepsInv(Run(INITIAL, moves[..|moves| - 1]), moves[|moves| - 1]);
    }
  }

  /** Never stranded: an idle worker with an empty queue leaves the daemon in a resting mode,
      with or without the race. */
  lemma {:induction false} NeverStranded(moves: seq<Move>)
    ensures var s := Run(INITIAL, moves);
            s.worker == Idle && s.core.queue == None ==> !Unsettled(s.core.mode)
  {
    RunKeepsInv(moves);
  }

  /** The recovery path calls the backend without the operation lock, and yet no two backend
      calls ever overlap. */
  lemma {:induction false} BackendCallsExclusive(moves: seq<Move>)
    ensures var s := Run(INITIAL, moves); !(s.ipc == Scanning && CallingBackend(s.worker))
  {
    RunKeepsInv(moves);
  }

  // ---------------------------------------------------------------------------------------
  // Every accepted item is taken once, in order

  /** The step puts an item into the empty queue. */
  predicate Accepts(s: State, move: Move) {
    s.core.queue == None && Step(s, move).core.queue != None
  }

  /** The step takes the queued item. */
  predicate Takes(s: State, move: Move) {
    move.Worker? && Allowed(s, move.reply, move.after) && s.worker == Idle && s.core.queue != None
  }

  function AcceptedBy(moves: seq<Move>): seq<WorkItem> {
    if moves == [] then []
    else
      var front, s := moves[..|moves| - 1], Run(INITIAL, moves[..|moves| - 1]);
      AcceptedBy(front) +
      if Accepts(s, moves[|moves| - 1]) then [Step(s, moves[|moves| - 1]).core.queue.value] else []
  }

  function TakenBy(moves: seq<Move>): seq<WorkItem> {
    if moves == [] then []
    else
      var front, s := moves[..|moves| - 1], Run(INITIAL, moves[..|moves| - 1]);
      TakenBy(front) + if Takes(s, moves[|moves| - 1]) then [s.core.queue.value] else []
  }

  function Queued(s: State): seq<WorkItem> {
    if s.core.queue.Some? then [s.core.queue.value] else []
  }

  lemma {:induction false} WorkerQueueStep(s: State, reply: Reply, after: Radio)
    requires Allowed(s, reply, after) && !Restoring(s.worker)
    ensures WorkerStep(s, reply, after).core.queue == if s.worker == Idle then None else s.core.queue
  {
  }

  lemma {:induction false} RestoringQueueStep(s: State, reply: Reply, after: Radio)
    requires Allowed(s, reply, after) && Restoring(s.worker)
    ensures WorkerStep(s, reply, after).core.queue == s.core.queue
  {
  }

  lemma {:induction false} RequestQueueStep(s: State, request: Request)
    ensures s.core.queue != None ==> IpcStep(s, request).core.queue == s.core.queue
  {
  }

  lemma {:induction false} QueueStep(s: State, move: Move)
    ensures Takes(s, move) ==> Step(s, move).core.queue == None
    ensures !Takes(s, move) && s.core.queue != None ==> Step(s, move).core.queue == s.core.queue
    ensures move.Worker? && s.core.queue == None ==> Step(s, move).core.queue == None
  {
    match move {
      case Worker(reply, after) =>
        if Allowed(s, reply, after) {
          if Restoring(s.worker) {
            RestoringQueueStep(s, reply, after);
          } else {
            WorkerQueueStep(s, reply, after);
          }
        }
      case Ipc(request) => RequestQueueStep(s, request);
    }
  }

  /** No request is lost or served twice: what was accepted is what was taken, and the queue. */
  lemma {:induction false} AcceptedIsTakenOrQueued(moves: seq<Move>)
    ensures AcceptedBy(moves) == TakenBy(moves) + Queued(Run(INITIAL, moves))
  {
    if moves != [] {
      var front, s := moves[..|moves| - 1], Run(INITIAL, moves[..|moves| - 1]);
      AcceptedIsTakenOrQueued(front);
      QueueStep(s, moves[|moves| - 1]);
    }
  }

  // ---------------------------------------------------------------------------------------
  // Runs in which no provisioning request was accepted during a station connection

  /** The mode that goes with an item from its acceptance to its settlement. */
  function Pending(item: WorkItem): Mode {
    if item.BootWork? then StationConnecting else Transition
  }

  /** Exactly one unresolved piece of work exists iff the mode is unsettled; no event fell
      outside the table; ERROR means the last attempt at the access point failed. */
  predicate Clean(s: State) {
    && Inv(s)
    && (Unsettled(s.core.mode) <==> s.core.queue.Some? || Carrying(s.worker))
    && !(s.core.queue.Some? && Carrying(s.worker))
    && (s.core.queue.Some? ==> s.core.mode == Pending(s.core.queue.value))
    && (s.worker.Taken? ==> s.core.mode == Pending(s.worker.item))
    && (s.worker.LookingUpSaved? || s.worker.NothingSaved? || s.worker.ActivatingSaved? ==>
          s.core.mode == StationConnecting)
    && (s.worker.ConnectingTo? || Restoring(s.worker) ==> s.core.mode == Transition)
    && !s.unknownEvent
    && (s.core.mode == Error ==> s.apFailed)
  }

  /** The request of the race: it would be accepted while a station connection is under way. */
  predicate Races(s: State, move: Move) {
    move == Ipc(Provisioning) && s.ipc == Listening && s.core.mode == StationConnecting && s.core.queue.None?
  }

  lemma {:induction false} IpcKeepsClean(s: State, request: Request)
    requires Clean(s) && !Races(s, Ipc(request))
    ensures Clean(IpcStep(s, request)) && IpcStep(s, request).raced == s.raced
  {
    IpcKeepsInv(s, request);
  }

  lemma {:induction false} ProcessingKeepsClean(s: State, reply: Reply, after: Radio)
    requires Clean(s) && Allowed(s, reply, after) && Carrying(s.worker) && !Restoring(s.worker)
    ensures Clean(WorkerStep(s, reply, after)) && WorkerStep(s, reply, after).raced == s.raced
  {
    StepKeepsInv(s, Worker(reply, after));
  }

  lemma {:induction false} RestoringKeepsClean(s: State, reply: Reply, after: Radio)
    requires Clean(s) && Allowed(s, reply, after) && Restoring(s.worker)
    ensures Clean(WorkerStep(s, reply, after)) && WorkerStep(s, reply, after).raced == s.raced
  {
    StepKeepsInv(s, Worker(reply, after));
  }

  lemma {:induction false} StationCheckKeepsClean(s: State, reply: Reply, after: Radio)
    requires Clean(s) && Allowed(s, reply, after) && (s.worker.CheckingStation? || s.worker.StationSeen?)
    ensures Clean(WorkerStep(s, reply, after)) && WorkerStep(s, reply, after).raced == s.raced
  {
    StepKeepsInv(s, Worker(reply, after));
  }

  lemma {:induction false} ApCheckKeepsClean(s: State, reply: Reply, after: Radio)
    requires Clean(s) && Allowed(s, reply, after) && (s.worker.CheckingAp? || s.worker.ApLost?)
    ensures Clean(WorkerStep(s, reply, after)) && WorkerStep(s, reply, after).raced == s.raced
  {
    StepKeepsInv(s, Worker(reply, after));
  }

  lemma {:induction false} WaitingKeepsClean(s: State, reply: Reply, after: Radio)
    requires Clean(s) && Allowed(s, reply, after) && !Carrying(s.worker) && !Checking(s.worker)
    ensures Clean(WorkerStep(s, reply, after)) && WorkerStep(s, reply, after).raced == s.raced
  {
    StepKeepsInv(s, Worker(reply, after));
  }

  lemma {:induction false} WorkerKeepsClean(s: State, reply: Reply, after: Radio)
    requires Clean(s) && Allowed(s, reply, after)
    ensures Clean(WorkerStep(s, reply, after)) && WorkerStep(s, reply, after).raced == s.raced
  {
    if s.worker.CheckingStation? || s.worker.StationSeen? {
      StationCheckKeepsClean(s, reply, after);
    } else if s.worker.CheckingAp? || s.worker.ApLost? {
      ApCheckKeepsClean(s, reply, after);
    } else if !Carrying(s.worker) {
      WaitingKeepsClean(s, reply, after);
    } else if Restoring(s.worker) {
      RestoringKeepsClean(s, reply, after);
    } else {
      ProcessingKeepsClean(s, reply, after);
    }
  }

  /** The accounting survives a step exactly when the step is not the race. */
  lemma {:induction false} CleanUnlessRace(s: State, move: Move)
    requires Clean(s) && !s.raced
    ensures Clean(Step(s, move)) <==> !Races(s, move)
    ensures Step(s, move).raced <==> Races(s, move)
  {
    match move {
      case Ipc(request) =>
        if !Races(s, move) {
          IpcKeepsClean(s, request);
        }
      case Worker(reply, after) =>
        if Allowed(s, reply, after) {
          WorkerKeepsClean(s, reply, after);
        }
    }
  }

  lemma {:induction false} RacedStays(s: State, move: Move)
    requires s.raced
    ensures Step(s, move).raced
  {
  }

  lemma {:induction false} CleanRuns(moves: seq<Move>)
    ensures !Run(INITIAL, moves).raced ==> Clean(Run(INITIAL, moves))
  {
    if moves != [] {
      var s := Run(INITIAL, moves[..|moves| - 1]);
      CleanRuns(moves[..|moves| - 1]);
      if s.raced {
        RacedStays(s, moves[|moves| - 1]);
      } else {
        CleanUnlessRace(s, moves[|moves| - 1]);
      }
    }
  }

  /** Without the race: one unresolved piece of work iff the mode is unsettled, no ValueError,
      ERROR only after a failed access point, and the radio agrees whenever the worker does not
      hold the operation lock. */
  lemma {:induction false} ExactlyOnePieceOfWork(moves: seq<Move>)
    requires !Run(INITIAL, moves).raced
    ensures var s := Run(INITIAL, moves);
      && (Unsettled(s.core.mode) <==> s.core.queue.Some? || Carrying(s.worker))
      && !(s.core.queue.Some? && Carrying(s.worker))
      && !s.unknownEvent
      && (s.core.mode == Error ==> s.apFailed)
      && (s.lock != HeldByWorker ==> Agrees(s))
  {
    CleanRuns(moves);
  }

  /** Whenever the worker does not hold the operation lock the radio is what the mode says, except
      after the race between an exception and its recovery block. */
  lemma {:induction false} RadioAgrees(moves: seq<Move>)
    ensures var s := Run(INITIAL, moves);
            s.lock != HeldByWorker && !Agrees(s) ==> s.raced && s.worker == Recovery
  {
    RunKeepsInv(moves);
    CleanRuns(moves);
  }

  // ---------------------------------------------------------------------------------------
  // The race

  /** No later request is accepted. */
  predicate Calm(s: State, moves: seq<Move>) {
    forall i :: 0 <= i < |moves| && moves[i].Ipc? ==>
      Step(Run(s, moves[..i]), moves[i]).core == Run(s, moves[..i]).core
  }

  predicate Resting(mode: Mode) {
    mode == StationConnected || mode == ProvisioningAp || mode == Error
  }

  predicate Boom(s: State) {
    s.core.mode == Error && s.core.error == Some(OPERATION_FAILED) && s.unknownEvent
  }

  /** From the race to ERROR: the boot item settles the mode, the extra item then meets an
      event the settled mode does not have, and the recovery gives up. */
  predicate Racing(s: State) {
    && Inv(s)
    && if s.core.queue.Some? then
         && s.core.queue.value == ProvisioningWork
         && (if Carrying(s.worker) then s.core.mode == Transition
             else (s.worker.Idle? || s.worker.Releasing?) && Resting(s.core.mode))
       else if Carrying(s.worker) then
         && Resting(s.core.mode)
         && (s.worker == Taken(ProvisioningWork)
             || (Restoring(s.worker) && s.worker.purpose == Processing)
             || (s.worker == Recovery && s.unknownEvent))
       else
         && Boom(s)
         && (s.worker.Idle? || s.worker.Releasing? || s.worker.Sampling? || s.worker == Sampled(Error))
  }

  lemma {:induction false} RaceStarts(s: State)
    requires Clean(s) && Races(s, Ipc(Provisioning))
    ensures Racing(Step(s, Ipc(Provisioning)))
  {
    IpcKeepsInv(s, Provisioning);
  }

  lemma {:induction false} FirstItemKeepsRacing(s: State, reply: Reply, after: Radio)
    requires Racing(s) && Allowed(s, reply, after) && s.core.queue.Some?
    requires Carrying(s.worker) && !Restoring(s.worker)
    ensures Racing(WorkerStep(s, reply, after))
  {
    StepKeepsInv(s, Worker(reply, after));
  }

  lemma {:induction false} HandoverKeepsRacing(s: State, reply: Reply, after: Radio)
    requires Racing(s) && Allowed(s, reply, after) && s.core.queue.Some? && !Carrying(s.worker)
    ensures Racing(WorkerStep(s, reply, after))
  {
    StepKeepsInv(s, Worker(reply, after));
  }

  lemma {:induction false} FirstRestoreKeepsRacing(s: State, reply: Reply, after: Radio)
    requires Racing(s) && Allowed(s, reply, after) && s.core.queue.Some? && Restoring(s.worker)
    ensures Racing(WorkerStep(s, reply, after))
  {
    StepKeepsInv(s, Worker(reply, after));
  }

  lemma {:induction false} SecondItemKeepsRacing(s: State, reply: Reply, after: Radio)
    requires Racing(s) && Allowed(s, reply, after) && s.core.queue.None? && Carrying(s.worker)
    ensures Racing(WorkerStep(s, reply, after))
  {
    StepKeepsInv(s, Worker(reply, after));
  }

  lemma {:induction false} ErrorKeepsRacing(s: State, reply: Reply, after: Radio)
    requires Racing(s) && Allowed(s, reply, after) && s.core.queue.None? && !Carrying(s.worker)
    ensures Racing(WorkerStep(s, reply, after))
  {
    StepKeepsInv(s, Worker(reply, after));
  }

  lemma {:induction false} WorkerKeepsRacing(s: State, reply: Reply, after: Radio)
    requires Racing(s) && Allowed(s, reply, after)
    ensures Racing(WorkerStep(s, reply, after))
  {
    if s.core.queue.Some? {
      if Restoring(s.worker) {
        FirstRestoreKeepsRacing(s, reply, after);
      } else if Carrying(s.worker) {
        FirstItemKeepsRacing(s, reply, after);
      } else {
        HandoverKeepsRacing(s, reply, after);
      }
    } else if Carrying(s.worker) {
      SecondItemKeepsRacing(s, reply, after);
    } else {
      ErrorKeepsRacing(s, reply, after);
    }
  }

  lemma {:induction false} CalmIpcKeepsRacing(s: State, request: Request)
    requires Racing(s) && IpcStep(s, request).core == s.core
    ensures Racing(IpcStep(s, request))
  {
    IpcKeepsInv(s, request);
  }

  lemma {:induction false} RacingRuns(s: State, moves: seq<Move>)
    requires Racing(s) && Calm(s, moves)
    ensures Racing(Run(s, moves))
  {
    if moves != [] {
      var front, last := moves[..|moves| - 1], moves[|moves| - 1];
      assert forall i :: 0 <= i < |front| ==> front[..i] == moves[..i];
      RacingRuns(s, front);
      match last {
        case Ipc(request) => CalmIpcKeepsRacing(Run(s, front), request);
        case Worker(reply, after) =>
          if Allowed(Run(s, front), reply, after) {
            WorkerKeepsRacing(Run(s, front), reply, after);
          }
      }
    }
  }

  /** After the race, unless a later request is accepted, the daemon comes to rest only in
      ERROR, through an event that is not in the table. */
  lemma {:induction false} RaceEndsInError(before: seq<Move>, moves: seq<Move>)
    requires !Run(INITIAL, before).raced && Races(Run(INITIAL, before), Ipc(Provisioning))
    requires Calm(Step(Run(INITIAL, before), Ipc(Provisioning)), moves)
    ensures var s := Run(Step(Run(INITIAL, before), Ipc(Provisioning)), moves);
            s.worker == Idle && s.core.queue == None ==> Boom(s)
  {
    CleanRuns(before);
    RaceStarts(Run(INITIAL, before));
    RacingRuns(Step(Run(INITIAL, before), Ipc(Provisioning)), moves);
  }

  // ---------------------------------------------------------------------------------------
  // Which requests can make the radio and the mode disagree

  /** The race is on, and the radio and the mode disagree with the lock free, or will. */
  predicate Doomed(s: State) {
    && Racing(s)
    && s.lock != HeldByIpc
    && s.core.mode != Error
    && (s.core.queue.Some? && s.worker.ApAnswered? ==> s.worker.success)
    && (s.core.queue.None? ==> Carrying(s.worker))
    && (s.core.queue.None? && s.worker.ApAnswered? ==> !Agrees(s))
    && (s.core.queue.None? && s.worker == Recovery ==> s.lock == Free && !Agrees(s))
  }

  /** The backend's part in a disagreement: the first item is settled, the second one's access
      point contradicts the mode that it finds. */
  function Steering(s: State): Move {
    var after :=
      if s.worker.RaisingAp? then
        if s.core.queue.None? && s.core.mode == ProvisioningAp then Radio(RaiseFailed, StartFailed, false) else AP_UP
      else if s.worker.ActivatingSaved? || s.worker.ConnectingTo? then STATION_UP
      else s.radio;
    Worker(Answer(after == AP_UP || !s.worker.RaisingAp?, None, None), after)
  }

  function Distance(s: State): nat {
    Rank(s.worker) + if s.core.queue.Some? then 11 else 0
  }

  lemma {:induction false} SteeringIsAllowed(s: State)
    requires Doomed(s)
    ensures Allowed(s, Steering(s).reply, Steering(s).after)
  {
  }

  lemma {:induction false} SteeredConnection(s: State)
    requires Doomed(s) && s.core.queue.Some? && Allowed(s, Steering(s).reply, Steering(s).after)
    requires Associating(s.worker)
    ensures Doomed(Step(s, Steering(s))) && Distance(Step(s, Steering(s))) < Distance(s)
  {
    WorkerKeepsRacing(s, Steering(s).reply, Steering(s).after);
  }

  lemma {:induction false} SteeredStart(s: State)
    requires Doomed(s) && s.core.queue.Some? && Allowed(s, Steering(s).reply, Steering(s).after)
    requires !Restoring(s.worker) && !Associating(s.worker)
    ensures Doomed(Step(s, Steering(s))) && Distance(Step(s, Steering(s))) < Distance(s)
  {
    WorkerKeepsRacing(s, Steering(s).reply, Steering(s).after);
  }

  lemma {:induction false} SteeredRestoration(s: State)
    requires Doomed(s) && s.core.queue.Some? && Allowed(s, Steering(s).reply, Steering(s).after)
    requires Restoring(s.worker)
    ensures Doomed(Step(s, Steering(s))) && Distance(Step(s, Steering(s))) < Distance(s)
  {
    WorkerKeepsRacing(s, Steering(s).reply, Steering(s).after);
  }

  lemma {:induction false} SteeredSecondItem(s: State)
    requires Doomed(s) && s.core.queue.None? && s.worker != Recovery
    requires Allowed(s, Steering(s).reply, Steering(s).after)
    ensures Doomed(Step(s, Steering(s))) && Distance(Step(s, Steering(s))) < Distance(s)
  {
    WorkerKeepsRacing(s, Steering(s).reply, Steering(s).after);
  }

  /** Worker steps alone lead to the disagreement. */
  lemma {:induction false} DoomedDisagrees(s: State) returns (moves: seq<Move>)
    requires Doomed(s)
    ensures forall i :: 0 <= i < |moves| ==> moves[i].Worker?
    ensures Run(s, moves).lock == Free && !Agrees(Run(s, moves))
    decreases Distance(s)
  {
    if s.core.queue.None? && s.worker == Recovery {
      moves := [];
    } else {
      SteeringIsAllowed(s);
      if s.core.queue.Some? && Restoring(s.worker) {
        SteeredRestoration(s);
      } else if s.core.queue.Some? && Associating(s.worker) {
        SteeredConnection(s);
      } else if s.core.queue.Some? {
        SteeredStart(s);
      } else {
        SteeredSecondItem(s);
      }
      var rest := DoomedDisagrees(Step(s, Steering(s)));
      moves := [Steering(s)] + rest;
      RunFromStep(s, Steering(s), rest);
    }
  }

  lemma {:induction false} RunFromStep(s: State, move: Move, rest: seq<Move>)
    ensures Run(s, [move] + rest) == Run(Step(s, move), rest)
  {
    var all := [move] + rest;
    if rest == [] {
      assert all[..|all| - 1] == [];
      assert Run(s, []) == s;
    } else {
      RunFromStep(s, move, rest[..|rest| - 1]);
      assert all[..|all| - 1] == [move] + rest[..|rest| - 1];
    }
  }

  /** Some continuation without a further accepted request leaves the operation lock free while
      the radio is not what the mode says. */
  ghost predicate CanDisagree(s: State) {
    exists moves :: Calm(s, moves) && Disagrees(Run(s, moves))
  }

  predicate Disagrees(s: State) {
    s.lock == Free && !Agrees(s)
  }

  lemma {:induction false} CalmKeepsClean(s: State, moves: seq<Move>)
    requires Clean(s) && !s.raced && Calm(s, moves)
    ensures Clean(Run(s, moves)) && !Run(s, moves).raced
  {
    if moves != [] {
      var front, last := moves[..|moves| - 1], moves[|moves| - 1];
      assert forall i :: 0 <= i < |front| ==> front[..i] == moves[..i];
      CalmKeepsClean(s, front);
      assert last.Ipc? ==> Step(Run(s, front), last).core == Run(s, front).core;
      CleanUnlessRace(Run(s, front), last);
    }
  }

  /** An accepted request can be followed by such a disagreement exactly if it is the race. */
  lemma {:induction false} DisagreementIffRace(s: State, request: Request)
    requires Clean(s) && !s.raced && Step(s, Ipc(request)).core != s.core
    ensures CanDisagree(Step(s, Ipc(request))) <==> Races(s, Ipc(request))
  {
    var next := Step(s, Ipc(request));
    if Races(s, Ipc(request)) {
      RaceStarts(s);
      var moves := DoomedDisagrees(next);
      assert Calm(next, moves) && Disagrees(Run(next, moves));
    } else {
      CleanUnlessRace(s, Ipc(request));
      forall moves | Calm(next, moves)
        ensures !Disagrees(Run(next, moves))
      {
        CalmKeepsClean(next, moves);
      }
    }
  }

  // ---------------------------------------------------------------------------------------
  // Progress

  /** Worker steps left before it is idle again, not counting waits for the lock. */
  function Rank(w: WorkerPoint): nat {
    if w.Idle? then 0
    else if w.Releasing? then 1
    else if w.ApAnswered? then if w.purpose == Processing then 5 else 2
    else if w.RaisingAp? then if w.purpose == Processing then 6 else 3
    else if w.Recovery? || w.StationSeen? || w.ApLost? then 4
    else if w.CheckingStation? || w.CheckingAp? then 5
    else if w.Sampled? then 6
    else if w.NothingSaved? || w.TimedOut? || w.Joined? || w.Sampling? then 7
    else if w.ConnectingTo? || w.ActivatingSaved? then 8
    else if w.LookingUpSaved? then 9
    else 10
  }

  /** A step of the worker that does something. */
  predicate Advances(s: State, move: Move) {
    && move.Worker?
    && Allowed(s, move.reply, move.after)
    && (s.worker.Taken? || s.worker.Sampled? ==> s.lock == Free)
  }

  function Advanced(s: State, moves: seq<Move>): nat {
    if moves == [] then 0
    else
      var front := moves[..|moves| - 1];
      Advanced(s, front) + if Advances(Run(s, front), moves[|moves| - 1]) then 1 else 0
  }

  lemma {:induction false} AssociatingLowersRank(s: State, reply: Reply, after: Radio)
    requires Inv(s) && Advances(s, Worker(reply, after)) && Associating(s.worker)
    ensures Rank(WorkerStep(s, reply, after).worker) < Rank(s.worker)
  {
  }

  lemma {:induction false} CarryingLowersRank(s: State, reply: Reply, after: Radio)
    requires Inv(s) && Advances(s, Worker(reply, after)) && Carrying(s.worker) && !Associating(s.worker)
    ensures Rank(WorkerStep(s, reply, after).worker) < Rank(s.worker)
  {
  }

  lemma {:induction false} ReconcilingLowersRank(s: State, reply: Reply, after: Radio)
    requires Inv(s) && Advances(s, Worker(reply, after)) && !Carrying(s.worker) && s.worker != Idle
    ensures Rank(WorkerStep(s, reply, after).worker) < Rank(s.worker)
  {
  }

  lemma {:induction false} StepLowersRank(s: State, move: Move)
    requires Inv(s) && s.worker != Idle
    ensures Rank(Step(s, move).worker) <= Rank(s.worker) - (if Advances(s, move) then 1 else 0)
  {
    if Advances(s, move) {
      if Associating(s.worker) {
        AssociatingLowersRank(s, move.reply, move.after);
      } else if Carrying(s.worker) {
        CarryingLowersRank(s, move.reply, move.after);
      } else {
        ReconcilingLowersRank(s, move.reply, move.after);
      }
    } else {
      assert Step(s, move).worker == s.worker;
    }
  }

  /** Whatever the IPC thread does meanwhile, ten worker steps that do not wait for the lock
      bring the worker back to idle: processing an item, recovering and reconciling all end. */
  lemma {:induction false} WorkerReturns(s: State, moves: seq<Move>)
    requires Inv(s)
    requires forall k :: 0 <= k <= |moves| ==> Run(s, moves[..k]).worker != Idle
    ensures Inv(Run(s, moves)) && Advanced(s, moves) + Rank(Run(s, moves).worker) <= Rank(s.worker) <= 10
  {
    if moves != [] {
      var front, last := moves[..|moves| - 1], moves[|moves| - 1];
      assert forall k :: 0 <= k <= |front| ==> front[..k] == moves[..k];
      assert moves[..|front|] == front;
      WorkerReturns(s, front);
      StepLowersRank(Run(s, front), last);
      StepKeepsInv(Run(s, front), last);
    }
  }

  // ---------------------------------------------------------------------------------------
  // A run of the race

  lemma {:induction false} Extend(
      moves: seq<Move>, s: State, move: Move) returns (moves': seq<Move>, s': State)
    requires Run(INITIAL, moves) == s
    ensures moves' == moves + [move] && s' == Step(s, move) && Run(INITIAL, moves') == s'
  {
    moves', s' := moves + [move], Step(s, move);
    assert moves'[..|moves|] == moves;
  }

  const YES := Answer(true, None, None)
  const STATION_UP := Radio(NeverRaised, Stopped, true)
  const AP_UP := Radio(Raised, Started, false)

  lemma {:induction false} RequestAcceptedDuringBoot() returns (moves: seq<Move>, s: State)
    ensures Run(INITIAL, moves) == s
    ensures s == State(Core(Transition, None, None, Some(ProvisioningWork)), Free, Taken(BootWork), Listening,
                       INITIAL.radio, true, false, false)
  {
    s, moves := INITIAL, [];
    moves, s := Extend(moves, s, Ipc(Request.Boot));
    assert s == INITIAL.(core := Core(StationConnecting, None, None, Some(BootWork)));
    moves, s := Extend(moves, s, Worker(YES, INITIAL.radio));
    assert s == INITIAL.(core := Core(StationConnecting, None, None, None), worker := Taken(BootWork));
    moves, s := Extend(moves, s, Ipc(Provisioning));
  }

  lemma {:induction false} StationJoinedDuringBoot() returns (moves: seq<Move>, s: State)
    ensures Run(INITIAL, moves) == s
    ensures s == State(Core(Transition, None, None, Some(ProvisioningWork)), HeldByWorker, Joined(None), Listening,
                       STATION_UP, true, false, false)
  {
    moves, s := RequestAcceptedDuringBoot();
    moves, s := Extend(moves, s, Worker(YES, INITIAL.radio));
    assert s.worker == LookingUpSaved;
    moves, s := Extend(moves, s, Worker(YES, INITIAL.radio));
    assert s.worker == ActivatingSaved;
    moves, s := Extend(moves, s, Worker(YES, STATION_UP));
  }

  lemma {:induction false} ExtraItemTaken() returns (moves: seq<Move>, s: State)
    ensures Run(INITIAL, moves) == s
    ensures s == State(Core(StationConnected, None, None, None), Free, Taken(ProvisioningWork), Listening,
                       STATION_UP, true, false, false)
  {
    moves, s := StationJoinedDuringBoot();
    moves, s := Extend(moves, s, Worker(YES, STATION_UP));
    assert s.worker == Releasing && s.core.mode == StationConnected;
    moves, s := Extend(moves, s, Worker(YES, STATION_UP));
    assert s.worker == Idle;
    moves, s := Extend(moves, s, Worker(YES, STATION_UP));
  }

  lemma {:induction false} ExtraItemFails() returns (moves: seq<Move>, s: State)
    ensures Run(INITIAL, moves) == s
    ensures s == State(Core(StationConnected, None, None, None), Free, Recovery, Listening, AP_UP, true, true, false)
  {
    moves, s := ExtraItemTaken();
    moves, s := Extend(moves, s, Worker(YES, STATION_UP));
    assert s.worker == RaisingAp(None, Processing);
    moves, s := Extend(moves, s, Worker(YES, AP_UP));
    assert s.worker.ApAnswered?;
    moves, s := Extend(moves, s, Worker(YES, AP_UP));
  }

  /** A provisioning request accepted while the saved station is being activated: the station
      connects, the extra item raises the access point under STATION_CONNECTED, so for one
      moment the mode and DHCP disagree with the lock free, and the run ends in ERROR although
      every backend call succeeded. */
  lemma {:induction false} RaceWitness() returns (moves: seq<Move>)
    ensures 0 < |moves|
    ensures var s := Run(INITIAL, moves[..|moves| - 1]);
            s.lock == Free && s.worker == Recovery && !Agrees(s)
    ensures var s := Run(INITIAL, moves);
            s.worker == Idle && s.core.queue == None && Boom(s) && !s.apFailed
  {
    var before, s := ExtraItemFails();
    moves, s := Extend(before, s, Worker(YES, AP_UP));
    assert moves[..|moves| - 1] == before;
  }
}
