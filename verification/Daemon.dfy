/** The controller as the program runs it: the methods of the two threads over the profile store,
    one atomic step after another. Each step is also taken by the state machine of Interleaving,
    so every call is one of its runs and inherits what holds of all runs. Requests may arrive
    between any two steps of the worker. */
module Daemon {
  import opened Options
  import opened NetworkState
  import opened RadioState
  import opened Controller
  import opened Interleaving
  import opened DaemonSafety
  import opened Profiles
  import opened ProfileSafety
  import opened Protocol
  import opened Scan
  import opened Requests
  import Backend

  /** The IPC thread's steps at each place where the worker can be overtaken. */
  type Arrivals = nat -> seq<Request>

  /** The place before a turn begins. */
  const START := 11

  /** Nothing arrives once the turn has begun. */
  ghost predicate Undisturbed(arrivals: Arrivals) {
    forall place :: place != START ==> arrivals(place) == []
  }

  function Asks(requests: seq<Request>): seq<Move> {
    seq(|requests|, i requires 0 <= i < |requests| => Ipc(requests[i]))
  }

  /** The moves lead to the state and take these items. The veil keeps proofs that only carry a run
      along from looking inside it; `Unveiled` lifts it. */
  ghost predicate Traced(moves: seq<Move>, s: State, taken: seq<WorkItem>, veil: nat) {
    if veil == 0 then s == Run(INITIAL, moves) && taken == TakenBy(moves) else Traced(moves, s, taken, veil - 1)
  }

  lemma {:induction false} Unveiled(moves: seq<Move>, s: State, taken: seq<WorkItem>, veil: nat)
    ensures Traced(moves, s, taken, veil) <==> s == Run(INITIAL, moves) && taken == TakenBy(moves)
  {
    if veil > 0 {
      Unveiled(moves, s, taken, veil - 1);
    }
  }

  /** One turn of the work loop: what arrives meanwhile, what a scan would print, and what an idle
      check would read. */
  datatype TurnOfLoop = TurnOfLoop(arrivals: Arrivals, output: seq<string>, seen: Option<string>, ready: bool)

  lemma {:induction false} Bound(used: set<nat>) returns (bound: nat)
    ensures forall u :: u in used ==> u < bound
  {
    if used == {} {
      bound := 0;
    } else {
      var u :| u in used;
      var rest := Bound(used - {u});
      bound := if u < rest then rest else u + 1;
      assert used == (used - {u}) + {u};
    }
  }

  class NetworkController {
    const backend: Backend.NetworkManagerBackend
    var mode: Mode
    var stationSsid: Option<string>
    var lastError: Option<string>
    var work: Option<WorkItem>
    var operationLock: Holder
    var connection: IpcPoint

    // the run so far, the items taken in it, and the exceptions that the backend has raised
    ghost var state: State
    ghost var moves: seq<Move>
    ghost var taken: seq<WorkItem>
    ghost var exceptions: nat

    function View(): Core
      reads this
    {
      Core(mode, stationSsid, lastError, work)
    }

    ghost predicate Matches(s: State)
      reads this, backend
    {
      s.core == View() && s.lock == operationLock && s.ipc == connection && s.radio == backend.Air()
    }

    ghost predicate OnTheRun()
      reads this
    {
      Traced(moves, state, taken, |moves| + 2)
    }

    /** What every run keeps. */
    lemma {:induction false} Reached()
      requires OnTheRun()
      ensures state == Run(INITIAL, moves) && taken == TakenBy(moves) && Inv(state)
    {
      Unveiled(moves, state, taken, |moves| + 2);
      RunKeepsInv(moves);
    }

    /** The fields are those of the run's last state. */
    ghost predicate Valid()
      reads this, backend
    {
      OnTheRun() && Matches(state)
    }

    constructor (backend: Backend.NetworkManagerBackend)
      requires backend.radio == Device(NeverRaised, NeverCommanded, None)
      ensures Valid() && state == INITIAL && this.backend == backend && exceptions == 0
    {
      this.backend := backend;
      mode, stationSsid, lastError, work := Unconfigured, None, None, None;
      operationLock, connection := Free, Listening;
      state, moves, taken, exceptions := INITIAL, [], [], 0;
      Unveiled([], INITIAL, [], 2);
    }

    ghost method Took(move: Move)
      requires OnTheRun() && !Takes(state, move) && Matches(Step(state, move))
      modifies `state, `moves
      ensures Valid() && state == Step(old(state), move) && moves == old(moves) + [move]
    {
      Reached();
      Reached();
      state, moves := Step(state, move), moves + [move];
      assert moves[..|moves| - 1] == old(moves);
      Unveiled(moves, state, taken, |moves| + 2);
    }

    /** A step of the worker that asks the backend nothing. */
    ghost method Went()
      requires OnTheRun() && state.radio == backend.Air()
      requires !Restoring(state.worker) || state.worker.ApAnswered?
      requires !state.worker.ActivatingSaved? && !state.worker.ConnectingTo?
      requires state.worker == Idle ==> state.core.queue == None
      requires Matches(WorkerStep(state, Exception, state.radio))
      modifies `state, `moves
      ensures Valid() && state == WorkerStep(old(state), Exception, old(state).radio)
    {
      Took(Worker(Exception, state.radio));
    }

    // ---------------------------------------------------------------------------------------
    // Requests

    /** A refused request leaves no trace: the transition is looked up first, then the queue is
        tried, and only then is the mode written. */
    method EnqueueTransition(item: WorkItem, event: Event) returns (verdict: Verdict)
      modifies `mode, `work
      ensures (View(), verdict) == Enqueued(old(View()), item, event)
      ensures verdict != Accepted ==> View() == old(View())
    {
      match Next(mode, event) {
        case None => return Invalid;
        case Some(next) =>
          if work.Some? {
            return Busy;
          }
          work := Some(item);
          mode := next;
          return Accepted;
      }
    }

    method RequestBoot() returns (verdict: Verdict)
      requires Valid() && connection == Listening
      modifies `mode, `work, `state, `moves
      ensures Valid() && moves == old(moves) + [Ipc(Request.Boot)] && state == IpcStep(old(state), Request.Boot)
      ensures verdict == Accepted <==> old(work) == None && (old(mode) == Unconfigured || old(mode) == Error)
      ensures View() == if verdict == Accepted
                        then Core(StationConnecting, stationSsid, lastError, Some(BootWork)) else old(View())
    {
      BootIsAcceptedIff(View());
      verdict := EnqueueTransition(BootWork, Event.Boot);
      Took(Ipc(Request.Boot));
    }

    method RequestConnect(ssid: string, password: Option<string>) returns (verdict: Verdict)
      requires Valid() && connection == Listening
      modifies `mode, `work, `lastError, `state, `moves
      ensures Valid() && moves == old(moves) + [Ipc(Connect(ssid, password))]
      ensures state == IpcStep(old(state), Connect(ssid, password))
      ensures verdict == Accepted <==>
        old(work) == None && (old(mode) == StationConnected || old(mode) == ProvisioningAp)
      ensures View() == if verdict == Accepted
                        then Core(Transition, stationSsid, None, Some(ConnectWork(ssid, password))) else old(View())
    {
      ConnectIsAcceptedIff(View(), ssid, password);
      verdict := EnqueueTransition(ConnectWork(ssid, password), StationRequested);
      if verdict == Accepted {
        lastError := None;
      }
      Took(Ipc(Connect(ssid, password)));
    }

    method RequestProvisioning() returns (verdict: Verdict)
      requires Valid() && connection == Listening
      modifies `mode, `work, `lastError, `state, `moves
      ensures Valid() && moves == old(moves) + [Ipc(Provisioning)] && state == IpcStep(old(state), Provisioning)
      ensures verdict == Accepted <==>
        old(work) == None && (old(mode) == StationConnecting || old(mode) == StationConnected || old(mode) == Error)
      ensures verdict == Unchanged <==> old(mode) == ProvisioningAp
      ensures View() == if verdict == Accepted
                        then Core(Transition, stationSsid, None, Some(ProvisioningWork)) else old(View())
    {
      ProvisioningIsAcceptedIff(View());
      verdict := Unchanged;
      if mode != ProvisioningAp {
        verdict := EnqueueTransition(ProvisioningWork, ProvisioningRequested);
        if verdict == Accepted {
          lastError := None;
        }
      }
      Took(Ipc(Provisioning));
    }

    /** The IPC thread's next step; `request` is what it would serve if it is free. */
    method Serve(request: Request)
      requires Valid()
      modifies `mode, `work, `lastError, `operationLock, `connection, `state, `moves, backend
      ensures Valid() && state == IpcStep(old(state), request) && moves == old(moves) + [Ipc(request)]
      ensures backend.profiles == old(backend.profiles) && old(backend.faults) <= backend.faults
    {
      match connection {
        case Listening =>
          match request {
            case Boot => var verdict := RequestBoot();
            case Connect(ssid, password) => var verdict := RequestConnect(ssid, password);
            case Provisioning => var verdict := RequestProvisioning();
            case Scan =>
              if mode == ProvisioningAp || mode == StationConnected {
                connection := AwaitingScan;
              }
              Took(Ipc(Request.Scan));
          }
        case AwaitingScan =>
          if operationLock == Free {
            operationLock, connection := HeldByIpc, Scanning;
          }
          Took(Ipc(request));
        case Scanning =>
          var output: seq<string> := *;
          var listed := backend.ScanNetworks(output);
          operationLock, connection := Free, Listening;
          Took(Ipc(request));
      }
    }

    /** One step of the IPC thread is none of the worker's. */
    method Overtake(request: Request)
      requires Valid()
      modifies `mode, `work, `lastError, `operationLock, `connection, `state, `moves, backend
      ensures Valid() && state.worker == old(state.worker) && moves == old(moves) + [Ipc(request)]
      ensures operationLock == HeldByWorker <==> old(operationLock) == HeldByWorker
      ensures backend.profiles == old(backend.profiles) && old(backend.faults) <= backend.faults
    {
      Reached();
      Serve(request);
    }

    /** The IPC thread overtakes the worker. */
    method Arrive(requests: seq<Request>)
      requires Valid()
      modifies `mode, `work, `lastError, `operationLock, `connection, `state, `moves, backend
      ensures Valid() && state.worker == old(state.worker) && moves == old(moves) + Asks(requests)
      ensures operationLock == HeldByWorker <==> old(operationLock) == HeldByWorker
      ensures backend.profiles == old(backend.profiles) && old(backend.faults) <= backend.faults
      ensures requests == [] ==> state == old(state) && backend.journal == old(backend.journal)
    {
      for i := 0 to |requests|
        invariant Valid() && state.worker == old(state.worker) && moves == old(moves) + Asks(requests[..i])
        invariant operationLock == HeldByWorker <==> old(operationLock) == HeldByWorker
        invariant backend.profiles == old(backend.profiles) && old(backend.faults) <= backend.faults
        invariant requests == [] ==> state == old(state) && backend.journal == old(backend.journal)
      {
        Overtake(requests[i]);
        assert Asks(requests[..i + 1]) == Asks(requests[..i]) + [Ipc(requests[i])];
      }
      assert requests[..|requests|] == requests;
    }

    // ---------------------------------------------------------------------------------------
    // Backend calls

    /** `with self._operation_lock`: the worker waits until a scan has released it. */
    method Acquire()
      requires Valid() && (state.worker.Taken? || state.worker.Sampled?)
      modifies `mode, `work, `lastError, `operationLock, `connection, `state, `moves, backend
      ensures Valid() && operationLock == HeldByWorker && View() == old(View())
      ensures backend.profiles == old(backend.profiles) && old(backend.faults) <= backend.faults
      ensures old(state).worker.Taken? ==> state.worker == Begin(old(state).worker.item)
      ensures old(state).worker.Sampled? ==> state.worker == Check(old(state).worker.mode)
    {
      Reached();
      if operationLock != Free {
        Serve(Scan);
      }
      operationLock := HeldByWorker;
      Went();
    }

    method AskSaved() returns (reply: Reply)
      requires Valid() && state.worker == LookingUpSaved
      modifies `operationLock, `state, `moves, `exceptions, backend
      ensures Valid() && View() == old(View())
      ensures backend.profiles == old(backend.profiles) && old(backend.faults) <= backend.faults
      ensures exceptions == old(exceptions) + if reply.Exception? then 1 else 0
      ensures state.worker ==
        if reply.Exception? then Recovery else if reply.success then ActivatingSaved else NothingSaved
      ensures reply.Answer? && backend.faults == old(backend.faults) ==>
        (reply.success <==> Recoverable(old(backend.profiles)))
    {
      var saved := backend.HasSavedStation();
      assert backend.Air() == state.radio;
      reply := Answer(saved, None, None);
      var raising: bool := *;
      if raising {
        reply, exceptions, operationLock := Exception, exceptions + 1, Free;
      }
      Took(Worker(reply, backend.Air()));
    }

    function ReplyOf(result: Backend.Result): Reply {
      match result
      case Connected(ssid) => Answer(true, ssid, None)
      case Refused(error) => Answer(false, None, Some(error))
      case Exception(_) => Reply.Exception
    }

    /** The backend has answered about a station; an exception leaves the operation lock's scope. */
    method Conclude(reply: Reply)
      requires OnTheRun() && Matches(state.(radio := backend.Air()))
      requires state.worker.ActivatingSaved? || state.worker.ConnectingTo?
      requires Allowed(state, reply, backend.Air())
      modifies `operationLock, `state, `moves, `exceptions
      ensures Valid() && View() == old(View())
      ensures exceptions == old(exceptions) + if reply.Exception? then 1 else 0
      ensures state.worker == Concluded(reply,
        if old(state).worker.ActivatingSaved? then "saved_station_timeout" else "station_timeout")
    {
      if reply.Exception? {
        exceptions, operationLock := exceptions + 1, Free;
      }
      Took(Worker(reply, backend.Air()));
    }

    method AskActivation() returns (reply: Reply)
      requires Valid() && state.worker == ActivatingSaved
      modifies `operationLock, `state, `moves, `exceptions, backend
      ensures Valid() && View() == old(View())
      ensures Held(old(backend.profiles)) ==> Held(backend.profiles)
      ensures old(backend.faults) <= backend.faults
      ensures exceptions == old(exceptions) + if reply.Exception? then 1 else 0
      ensures state.worker == Concluded(reply, "saved_station_timeout")
      ensures reply.Answer? && backend.faults == old(backend.faults) ==>
        (reply.success <==> Recoverable(old(backend.profiles)))
      ensures reply.Answer? && reply.success && backend.faults == old(backend.faults) ==>
        BootedInto(old(backend.profiles), backend.profiles, reply.ssid)
    {
      var raising: bool := *;
      if raising {
        var commands: nat := *;
        var ended := backend.ActivateInterrupted(commands);
        reply := Exception;
      } else {
        ghost var before, log := backend.profiles, backend.journal;
        var result := backend.ActivateSavedStation();
        if Held(before) {
          BootingIsHeld(log, backend.journal, before, backend.profiles);
        }
        reply := ReplyOf(result);
      }
      Conclude(reply);
    }

    /** The backend's attempt, or its exception after any number of commands; NetworkManager picks
        the new profile's UUID. */
    method Attempted(ssid: string, password: Option<string>, output: seq<string>) returns (reply: Reply)
      modifies backend
      ensures Held(old(backend.profiles)) ==> Held(backend.profiles)
      ensures old(backend.faults) <= backend.faults
      ensures StationReply(reply.Answer? && reply.success, backend.Air())
      ensures reply.Answer? && reply.success ==>
        reply.ssid == Some(ssid) && Installed(old(backend.profiles), backend.profiles, ssid)
      ensures reply.Answer? && !reply.success && backend.faults == old(backend.faults) ==>
        Unharmed(old(backend.profiles), backend.profiles)
      ensures reply.Answer? && backend.faults == old(backend.faults) ==>
        Decides(reply.success, reply.error, old(backend.profiles), ssid, password, output)
    {
      ghost var bound := Bound(backend.profiles.Keys);
      assert bound !in backend.profiles.Keys;
      var candidate: nat :| candidate !in backend.profiles;
      var raising: bool := *;
      if raising {
        var commands: nat := *;
        var ended := backend.ConnectInterrupted(ssid, password, output, candidate, commands);
        return Exception;
      }
      ghost var a := Attempt(backend.profiles, CanonicalOf(backend.profiles), candidate, backend.journal);
      var result, seen := backend.ConnectStation(ssid, password, output, candidate);
      if Held(a.before) {
        SafeIsHeld(backend.journal, backend.profiles, a);
      }
      if result.Connected? {
        PromotedIsInstalled(a, ssid);
      }
      reply := ReplyOf(result);
    }

    /** The connection that the pending work asks for. */
    method AskConnection(ssid: string, password: Option<string>, output: seq<string>) returns (reply: Reply)
      requires Valid() && state.worker == ConnectingTo(ssid, password)
      modifies `operationLock, `state, `moves, `exceptions, backend
      ensures Valid() && View() == old(View())
      ensures Held(old(backend.profiles)) ==> Held(backend.profiles)
      ensures old(backend.faults) <= backend.faults
      ensures exceptions == old(exceptions) + if reply.Exception? then 1 else 0
      ensures state.worker == Concluded(reply, "station_timeout")
      ensures reply.Answer? && reply.success ==>
        reply.ssid == Some(ssid) && Installed(old(backend.profiles), backend.profiles, ssid)
      ensures reply.Answer? && !reply.success && backend.faults == old(backend.faults) ==>
        Unharmed(old(backend.profiles), backend.profiles)
      ensures reply.Answer? && backend.faults == old(backend.faults) ==>
        Decides(reply.success, reply.error, old(backend.profiles), ssid, password, output)
    {
      reply := Attempted(ssid, password, output);
      Conclude(reply);
    }

    /** Why the access point is not up: the command that failed, or that the call was left by an
        exception. */
    ghost predicate ApRefused(error: Option<string>, excepted: bool)
      reads this, backend
    {
      if excepted then error == Some("ap_activation_failed")
      else backend.journal != []
           && Backend.EndsProvisioning(error, backend.journal[|backend.journal| - 1], backend.profiles)
    }

    method AskProvisioning(ghost prior: Option<string>, ghost purpose: Purpose)
      returns (success: bool, apError: Option<string>)
      requires Valid() && state.worker == RaisingAp(prior, purpose)
      modifies `state, `moves, `exceptions, backend
      ensures Valid() && View() == old(View()) && operationLock == old(operationLock)
      ensures backend.profiles == old(backend.profiles)
      ensures old(backend.faults) <= backend.faults && old(exceptions) <= exceptions
      ensures state.worker == ApAnswered(success, apError, prior, purpose)
      ensures !success ==> backend.faults + exceptions > old(backend.faults) + old(exceptions)
      ensures !success ==> ApRefused(apError, exceptions > old(exceptions))
    {
      success, apError := backend.ActivateProvisioning();
      ghost var reply := Answer(success, None, apError);
      var raising: bool := *;
      if raising {
        // caught where the backend is called
        success, apError, exceptions := false, Some(AP_ACTIVATION_FAILED), exceptions + 1;
        reply := Exception;
      }
      Took(Worker(reply, backend.Air()));
    }

    // ---------------------------------------------------------------------------------------
    // The worker's blocks

    method Apply(event: Event) returns (known: bool)
      modifies `mode
      ensures (View(), known) == Applied(old(View()), event)
    {
      var next := Next(mode, event);
      known := next.Some?;
      if known {
        mode := next.value;
      }
    }

    method RecordProvisioning(success: bool, apError: Option<string>, prior: Option<string>) returns (known: bool)
      modifies `mode, `stationSsid, `lastError
      ensures (View(), known) == ProvisioningFinished(old(View()), success, apError, prior)
      ensures old(mode) == Transition ==>
        && known && stationSsid == None
        && mode == (if success then ProvisioningAp else Error)
        && lastError == if success then prior else Some(OrDefault(apError, AP_ACTIVATION_FAILED))
    {
      known := Apply(if success then ApReady else ApFailed);
      if known {
        stationSsid := None;
        lastError := if success then prior else Some(OrDefault(apError, AP_ACTIVATION_FAILED));
      }
    }

    /** Record how raising the access point ended. An event outside the table raises ValueError,
        which for an item leaves the operation lock's scope at once. */
    method FinishProvisioning(success: bool, apError: Option<string>, prior: Option<string>, purpose: Purpose)
      returns (raised: bool)
      requires Valid() && state.worker == ApAnswered(success, apError, prior, purpose)
      modifies `mode, `stationSsid, `lastError, `operationLock, `state, `moves
      ensures Valid()
      ensures state.worker == if raised then Recovery else if purpose == Recovering then Idle else Releasing
      ensures raised ==> purpose == Processing
      ensures success && old(mode) == Transition ==>
        !raised && mode == ProvisioningAp && lastError == prior && stationSsid == None
      ensures !success && old(mode) == Transition ==>
        !raised && mode == Error && stationSsid == None && lastError == Some(OrDefault(apError, AP_ACTIVATION_FAILED))
    {
      var known := RecordProvisioning(success, apError, prior);
      raised := !known && purpose == Processing;
      if raised {
        operationLock := Free;
      }
      Went();
    }

    /** `_restore_provisioning`: from TRANSITION it ends with the access point up unless raising it
        failed. */
    method RestoreProvisioning(prior: Option<string>, purpose: Purpose, arrivals: Arrivals) returns (raised: bool)
      requires Valid() && state.worker == RaisingAp(prior, purpose)
      modifies `mode, `work, `stationSsid, `lastError, `operationLock, `connection
      modifies `state, `moves, `exceptions, backend
      ensures Valid()
      ensures backend.profiles == old(backend.profiles)
      ensures old(backend.faults) <= backend.faults && old(exceptions) <= exceptions
      ensures state.worker == if raised then Recovery else if purpose == Recovering then Idle else Releasing
      ensures raised ==> purpose == Processing
      ensures Undisturbed(arrivals) && old(mode) == Transition && exceptions == old(exceptions)
              && backend.faults == old(backend.faults) ==>
        !raised && mode == ProvisioningAp && lastError == prior && stationSsid == None
      ensures Undisturbed(arrivals) ==> work == old(work)
      ensures Undisturbed(arrivals) && old(mode) == Transition ==>
        && !raised && stationSsid == None
        && (mode == ProvisioningAp || mode == Error)
        && (mode == ProvisioningAp ==> lastError == prior)
        && (mode == Error ==> ApRefused(lastError, exceptions > old(exceptions)))
    {
      var success, apError := AskProvisioning(prior, purpose);
      Arrive(arrivals(10));
      raised := FinishProvisioning(success, apError, prior, purpose);
    }

    method RecordStationUp(ssid: Option<string>) returns (known: bool)
      modifies `mode, `stationSsid, `lastError
      ensures (View(), known) == StationEntered(old(View()), ssid)
      ensures Unsettled(old(mode)) ==> known && mode == StationConnected && stationSsid == ssid && lastError == None
    {
      known := Apply(StationJoined);
      if known {
        stationSsid := ssid;
        lastError := None;
      }
    }

    /** The station is connected. */
    method EnterStation(ssid: Option<string>) returns (raised: bool)
      requires Valid() && state.worker == Joined(ssid)
      modifies `mode, `stationSsid, `lastError, `operationLock, `state, `moves
      ensures Valid() && state.worker == if raised then Recovery else Releasing
      ensures Unsettled(old(mode)) ==> !raised && mode == StationConnected && stationSsid == ssid && lastError == None
    {
      var known := RecordStationUp(ssid);
      if !known {
        operationLock := Free;
      }
      raised := !known;
      Went();
    }

    /** The event that leads to provisioning. */
    method GiveUp(event: Event, ghost prior: Option<string>) returns (raised: bool)
      requires Valid()
      requires || (state.worker == NothingSaved && event == NoSavedNetwork && prior == None)
               || (state.worker.TimedOut? && event == StationTimeout && prior == Some(state.worker.reason))
      modifies `mode, `operationLock, `state, `moves
      ensures Valid() && state.worker == if raised then Recovery else RaisingAp(prior, Processing)
      ensures old(mode) == StationConnecting || (old(mode) == Transition && event == StationTimeout) ==>
        !raised && mode == Transition
    {
      var known := Apply(event);
      if !known {
        operationLock := Free;
      }
      raised := !known;
      Went();
    }

    /** The end of a boot or a connection whose backend call has answered. */
    method Settle(reply: Reply, default: string, arrivals: Arrivals) returns (raised: bool)
      requires Valid() && reply.Answer? && state.worker == Concluded(reply, default)
      modifies `mode, `work, `stationSsid, `lastError, `operationLock, `connection
      modifies `state, `moves, `exceptions, backend
      ensures Valid() && state.worker == if raised then Recovery else Releasing
      ensures backend.profiles == old(backend.profiles)
      ensures old(backend.faults) <= backend.faults && old(exceptions) <= exceptions
      ensures Undisturbed(arrivals) && Unsettled(old(mode)) && exceptions == old(exceptions)
              && backend.faults == old(backend.faults) ==>
        && !raised
        && (if reply.success then mode == StationConnected && stationSsid == reply.ssid && lastError == None
            else mode == ProvisioningAp && stationSsid == None && lastError == Some(OrDefault(reply.error, default)))
      ensures Undisturbed(arrivals) ==> work == old(work)
    {
      Arrive(arrivals(6));
      if reply.success {
        raised := EnterStation(reply.ssid);
      } else {
        raised := FallBack(OrDefault(reply.error, default), arrivals);
      }
    }

    method FallBack(reason: string, arrivals: Arrivals) returns (raised: bool)
      requires Valid() && state.worker == TimedOut(reason)
      modifies `mode, `work, `stationSsid, `lastError, `operationLock, `connection
      modifies `state, `moves, `exceptions, backend
      ensures Valid() && state.worker == if raised then Recovery else Releasing
      ensures backend.profiles == old(backend.profiles)
      ensures old(backend.faults) <= backend.faults && old(exceptions) <= exceptions
      ensures Undisturbed(arrivals) && Unsettled(old(mode)) && exceptions == old(exceptions)
              && backend.faults == old(backend.faults) ==>
        !raised && mode == ProvisioningAp && stationSsid == None && lastError == Some(reason)
      ensures Undisturbed(arrivals) ==> work == old(work)
    {
      raised := GiveUp(StationTimeout, Some(reason));
      if !raised {
        Arrive(arrivals(7));
        raised := RestoreProvisioning(Some(reason), Processing, arrivals);
      }
    }

    // ---------------------------------------------------------------------------------------
    // Items

    method ProvisionInstead(arrivals: Arrivals) returns (raised: bool)
      requires Valid() && state.worker == NothingSaved
      modifies `mode, `work, `stationSsid, `lastError, `operationLock, `connection
      modifies `state, `moves, `exceptions, backend
      ensures Valid() && state.worker == if raised then Recovery else Releasing
      ensures backend.profiles == old(backend.profiles)
      ensures old(backend.faults) <= backend.faults && old(exceptions) <= exceptions
      ensures Undisturbed(arrivals) && old(mode) == StationConnecting && exceptions == old(exceptions)
              && backend.faults == old(backend.faults) ==>
        !raised && mode == ProvisioningAp && lastError == None
      ensures Undisturbed(arrivals) ==> work == old(work)
    {
      raised := GiveUp(NoSavedNetwork, None);
      if !raised {
        Arrive(arrivals(4));
        raised := RestoreProvisioning(None, Processing, arrivals);
      }
    }

    method ProcessBoot(arrivals: Arrivals) returns (raised: bool)
      requires Valid() && state.worker == LookingUpSaved
      modifies `mode, `work, `stationSsid, `lastError, `operationLock, `connection
      modifies `state, `moves, `exceptions, backend
      ensures Valid() && state.worker == if raised then Recovery else Releasing
      ensures Held(old(backend.profiles)) ==> Held(backend.profiles)
      ensures old(backend.faults) <= backend.faults && old(exceptions) <= exceptions
      ensures Undisturbed(arrivals) && old(mode) == StationConnecting && exceptions == old(exceptions)
              && backend.faults == old(backend.faults) ==>
        && !raised && lastError == None
        && mode == (if Recoverable(old(backend.profiles)) then StationConnected else ProvisioningAp)
        && (mode == StationConnected ==> BootedInto(old(backend.profiles), backend.profiles, stationSsid))
      ensures Undisturbed(arrivals) ==> work == old(work)
    {
      var saved := AskSaved();
      if saved.Exception? {
        return true;
      }
      Arrive(arrivals(3));
      if !saved.success {
        raised := ProvisionInstead(arrivals);
        return;
      }
      var reply := AskActivation();
      if reply.Exception? {
        return true;
      }
      raised := Settle(reply, "saved_station_timeout", arrivals);
    }

    method ProcessConnect(ssid: string, password: Option<string>, output: seq<string>, arrivals: Arrivals)
      returns (raised: bool)
      requires Valid() && state.worker == ConnectingTo(ssid, password)
      modifies `mode, `work, `stationSsid, `lastError, `operationLock, `connection
      modifies `state, `moves, `exceptions, backend
      ensures Valid() && state.worker == if raised then Recovery else Releasing
      ensures Held(old(backend.profiles)) ==> Held(backend.profiles)
      ensures old(backend.faults) <= backend.faults && old(exceptions) <= exceptions
      ensures Undisturbed(arrivals) && old(mode) == Transition && exceptions == old(exceptions)
              && backend.faults == old(backend.faults) ==>
        && !raised
        && (mode == StationConnected || mode == ProvisioningAp)
        && (mode == StationConnected ==>
              stationSsid == Some(ssid) && Installed(old(backend.profiles), backend.profiles, ssid))
        && (mode == ProvisioningAp ==> Unharmed(old(backend.profiles), backend.profiles))
        && Decides(mode == StationConnected, lastError, old(backend.profiles), ssid, password, output)
      ensures Undisturbed(arrivals) ==> work == old(work)
    {
      var reply := AskConnection(ssid, password, output);
      if reply.Exception? {
        return true;
      }
      raised := Settle(reply, "station_timeout", arrivals);
    }

    method Process(item: WorkItem, output: seq<string>, arrivals: Arrivals) returns (raised: bool)
      requires Valid() && state.worker == Begin(item)
      modifies `mode, `work, `stationSsid, `lastError, `operationLock, `connection
      modifies `state, `moves, `exceptions, backend
      ensures Valid() && state.worker == if raised then Recovery else Releasing
      ensures Held(old(backend.profiles)) ==> Held(backend.profiles)
      ensures old(backend.faults) <= backend.faults && old(exceptions) <= exceptions
      ensures Undisturbed(arrivals) && old(mode) == Pending(item) && exceptions == old(exceptions)
              && backend.faults == old(backend.faults) ==>
        !raised && Outcome(item, old(backend.profiles), output, View(), backend.profiles)
      ensures Undisturbed(arrivals) ==> work == old(work)
    {
      match item {
        case BootWork => raised := ProcessBoot(arrivals);
        case ConnectWork(ssid, password) => raised := ProcessConnect(ssid, password, output, arrivals);
        case ProvisioningWork => raised := RestoreProvisioning(None, Processing, arrivals);
      }
    }

    /** The end of the operation lock's scope. */
    method Release()
      requires Valid() && state.worker == Releasing
      modifies `operationLock, `state, `moves
      ensures Valid() && state.worker == Idle
    {
      Reached();
      operationLock := Free;
      Went();
    }

    /** The recovery's block: provisioning is restored from an unsettled mode only. */
    method BeginRecovery() returns (restoring: bool)
      requires Valid() && state.worker == Recovery
      modifies `mode, `stationSsid, `lastError, `state, `moves
      ensures Valid() && restoring == Unsettled(old(mode))
      ensures state.worker == if restoring then RaisingAp(Some(OPERATION_FAILED), Recovering) else Idle
      ensures if restoring then mode == Transition else mode == Error && lastError == Some(OPERATION_FAILED)
    {
      restoring := true;
      if mode == StationConnecting {
        var known := Apply(StationTimeout);
      } else if mode != Transition {
        mode, stationSsid, lastError := Error, None, Some(OPERATION_FAILED);
        restoring := false;
      }
      Went();
    }

    /** `_recover_unexpected_failure`, without the operation lock. */
    method RecoverUnexpectedFailure(arrivals: Arrivals)
      requires Valid() && state.worker == Recovery
      modifies `mode, `work, `stationSsid, `lastError, `operationLock, `connection
      modifies `state, `moves, `exceptions, backend
      ensures Valid() && state.worker == Idle
      ensures backend.profiles == old(backend.profiles)
      ensures old(backend.faults) <= backend.faults && old(exceptions) <= exceptions
      ensures Undisturbed(arrivals) && exceptions == old(exceptions) && backend.faults == old(backend.faults) ==>
        lastError == Some(OPERATION_FAILED) && mode == if Unsettled(old(mode)) then ProvisioningAp else Error
      ensures Undisturbed(arrivals) ==> work == old(work)
    {
      var restoring := BeginRecovery();
      if restoring {
        Arrive(arrivals(9));
        var raised := RestoreProvisioning(Some(OPERATION_FAILED), Recovering, arrivals);
      }
    }

    /** The profile that is up is the only one under the saved name. */
    ghost predicate SavedIsUp()
      reads this, backend
    {
      backend.radio.up.Some? && Sole(backend.profiles, SAVED_PROFILE, backend.radio.up.value)
    }

    /** What holds whenever the worker is idle, whatever arrived, failed or was raised. */
    ghost predicate AtRest()
      reads this, backend
    {
      && Valid() && state.worker == Idle
      && (work == None ==> !Unsettled(mode))
      && (mode == ProvisioningAp ==> backend.Air() == Radio(Raised, Started, false))
      && (mode == StationConnected ==> backend.radio.dhcp == Stopped && SavedIsUp())
    }

    lemma {:induction false} IdleIsAtRest()
      requires Valid() && state.worker == Idle
      ensures AtRest()
    {
      Reached();
    }

    /** `queue.get`: the item leaves the queue before it is processed. */
    method TakeWork() returns (item: WorkItem)
      requires Valid() && state.worker == Idle && work.Some?
      modifies `work, `state, `moves, `taken
      ensures Valid() && Some(item) == old(work) && View() == old(View()).(queue := None)
      ensures state.worker == Taken(item) && taken == old(taken) + [item]
    {
      item := work.value;
      work := None;
      var move := Worker(Exception, state.radio);
      assert Takes(state, move);
      Reached();
      state, moves, taken := Step(state, move), moves + [move], taken + [item];
      assert moves[..|moves| - 1] == old(moves);
      Unveiled(moves, state, taken, |moves| + 2);
    }

    /** The operation lock is taken. */
    method Start(arrivals: Arrivals)
      requires Valid() && state.worker.Taken?
      modifies `mode, `work, `lastError, `operationLock, `connection, `state, `moves, backend
      ensures Valid() && state.worker == Begin(old(state).worker.item)
      ensures backend.profiles == old(backend.profiles) && old(backend.faults) <= backend.faults
      ensures Undisturbed(arrivals) ==> View() == old(View())
    {
      Arrive(arrivals(0));
      Acquire();
      Arrive(arrivals(1));
    }

    /** The operation lock's scope ends, or an exception has left it and is recovered from. */
    method Leave(raised: bool, arrivals: Arrivals)
      requires Valid() && state.worker == if raised then Recovery else Releasing
      modifies `mode, `work, `stationSsid, `lastError, `operationLock, `connection
      modifies `state, `moves, `exceptions, backend
      ensures Valid() && state.worker == Idle
      ensures backend.profiles == old(backend.profiles)
      ensures old(backend.faults) <= backend.faults && old(exceptions) <= exceptions
      ensures Undisturbed(arrivals) && !raised ==> View() == old(View())
      ensures Undisturbed(arrivals) ==> work == old(work)
    {
      if raised {
        Arrive(arrivals(8));
        RecoverUnexpectedFailure(arrivals);
      } else {
        Arrive(arrivals(2));
        Release();
      }
    }

    /** `process_next`. Whatever arrives between its steps and whatever the backend does, the daemon
        is not stranded, the radio is what the mode says and no credentials are lost; if nothing
        interferes, the item comes to its outcome. */
    method ProcessNext(output: seq<string>, arrivals: Arrivals) returns (processed: bool)
      requires Valid() && state.worker == Idle
      modifies `mode, `work, `stationSsid, `lastError, `operationLock, `connection
      modifies `state, `moves, `taken, `exceptions, backend
      ensures processed <==> old(work).Some?
      ensures if processed then AtRest() else Valid() && state.worker == Sampling && View() == old(View())
      ensures Held(old(backend.profiles)) ==> Held(backend.profiles)
      ensures old(backend.faults) <= backend.faults && old(exceptions) <= exceptions
      ensures processed && Undisturbed(arrivals) && old(mode) == Pending(old(work).value)
              && exceptions == old(exceptions) && backend.faults == old(backend.faults) ==>
        Outcome(old(work).value, old(backend.profiles), output, View(), backend.profiles)
      ensures taken == old(taken) + (if processed then [old(work).value] else [])
      ensures processed && Undisturbed(arrivals) ==> work == None
    {
      processed := work.Some?;
      if !processed {
        Went();
        return;
      }
      var item := TakeWork();
      Start(arrivals);
      var raised := Process(item, output, arrivals);
      Leave(raised, arrivals);
      IdleIsAtRest();
    }

    // ---------------------------------------------------------------------------------------
    // Idle checks

    /** The block of a station check; an exception reads as no SSID. */
    method RecordStation(seen: Option<string>) returns (lost: bool)
      requires Valid() && state.worker == StationSeen(seen)
      modifies `mode, `stationSsid, `state, `moves
      ensures Valid() && lost == (old(mode) == StationConnected && seen.None?)
      ensures state.worker == if lost then RaisingAp(Some("station_connection_lost"), Reconciling) else Releasing
      ensures lost ==> mode == Transition
      ensures !lost ==> View() == if mode == StationConnected then old(View()).(ssid := seen) else old(View())
    {
      lost := mode == StationConnected && seen.None?;
      if lost {
        var known := Apply(StationTimeout);
      } else if mode == StationConnected {
        stationSsid := seen;
      }
      Went();
    }

    /** The block of an access-point check that found it down. */
    method RecordDown() returns (lost: bool)
      requires Valid() && state.worker == ApLost
      modifies `mode, `state, `moves
      ensures Valid() && lost == (old(mode) == ProvisioningAp)
      ensures state.worker == if lost then RaisingAp(Some("provisioning_ap_lost"), Reconciling) else Releasing
      ensures lost ==> mode == Transition
    {
      lost := mode == ProvisioningAp;
      if lost {
        var known := Apply(ProvisioningRequested);
      }
      Went();
    }

    /** Once the SSID has been read; an exception reads as no SSID. */
    method ReconcileStation(seen: Option<string>, arrivals: Arrivals)
      requires Valid() && state.worker == StationSeen(seen)
      modifies `mode, `work, `stationSsid, `lastError, `operationLock, `connection
      modifies `state, `moves, `exceptions, backend
      ensures Valid() && state.worker == Releasing
      ensures backend.profiles == old(backend.profiles)
      ensures old(backend.faults) <= backend.faults && old(exceptions) <= exceptions
      ensures old(mode) == StationConnected && seen.Some? ==> View() == old(View()).(ssid := seen)
      ensures Undisturbed(arrivals) && old(mode) == StationConnected && seen.None?
              && exceptions == old(exceptions) && backend.faults == old(backend.faults) ==>
        mode == ProvisioningAp && lastError == Some("station_connection_lost")
      ensures Undisturbed(arrivals) ==> work == old(work)
    {
      var lost := RecordStation(seen);
      if lost {
        Arrive(arrivals(5));
        var raised := RestoreProvisioning(Some("station_connection_lost"), Reconciling, arrivals);
      }
    }

    /** Once the access point was found down. */
    method ReconcileProvisioning(arrivals: Arrivals)
      requires Valid() && state.worker == ApLost
      modifies `mode, `work, `stationSsid, `lastError, `operationLock, `connection
      modifies `state, `moves, `exceptions, backend
      ensures Valid() && state.worker == Releasing
      ensures backend.profiles == old(backend.profiles)
      ensures old(backend.faults) <= backend.faults && old(exceptions) <= exceptions
      ensures Undisturbed(arrivals) && old(mode) == ProvisioningAp
              && exceptions == old(exceptions) && backend.faults == old(backend.faults) ==>
        mode == ProvisioningAp && lastError == Some("provisioning_ap_lost")
      ensures Undisturbed(arrivals) ==> work == old(work)
    {
      var lost := RecordDown();
      if lost {
        Arrive(arrivals(5));
        var raised := RestoreProvisioning(Some("provisioning_ap_lost"), Reconciling, arrivals);
      }
    }

    /** `_reconcile_station`: the backend is asked which SSID the station has. */
    method CheckStation(seen: Option<string>, arrivals: Arrivals)
      requires Valid() && state.worker == CheckingStation
      modifies `mode, `work, `stationSsid, `lastError, `operationLock, `connection
      modifies `state, `moves, `exceptions, backend
      ensures Valid() && state.worker == Releasing
      ensures backend.profiles == old(backend.profiles)
      ensures old(backend.faults) <= backend.faults && old(exceptions) <= exceptions
      ensures Undisturbed(arrivals) && exceptions == old(exceptions) && backend.faults == old(backend.faults)
              && old(mode) == StationConnected ==>
        if seen.Some? then View() == old(View()).(ssid := seen)
        else mode == ProvisioningAp && lastError == Some("station_connection_lost")
      ensures Undisturbed(arrivals) ==> work == old(work)
    {
      Took(Worker(Answer(true, seen, None), backend.Air()));
      Arrive(arrivals(3));
      ReconcileStation(seen, arrivals);
    }

    /** `_reconcile_provisioning`: the backend is asked whether the access point is ready. */
    method CheckAp(ready: bool, arrivals: Arrivals)
      requires Valid() && state.worker == CheckingAp
      modifies `mode, `work, `stationSsid, `lastError, `operationLock, `connection
      modifies `state, `moves, `exceptions, backend
      ensures Valid() && state.worker == Releasing
      ensures backend.profiles == old(backend.profiles)
      ensures old(backend.faults) <= backend.faults && old(exceptions) <= exceptions
      ensures Undisturbed(arrivals) && exceptions == old(exceptions) && backend.faults == old(backend.faults)
              && old(mode) == ProvisioningAp ==>
        if ready then View() == old(View()) else mode == ProvisioningAp && lastError == Some("provisioning_ap_lost")
      ensures Undisturbed(arrivals) ==> work == old(work)
    {
      Took(Worker(Answer(ready, None, None), backend.Air()));
      if !ready {
        Arrive(arrivals(3));
        ReconcileProvisioning(arrivals);
      }
    }

    /** The check that the sampled mode calls for. */
    method CheckSampled(sampled: Mode, seen: Option<string>, ready: bool, arrivals: Arrivals)
      requires Valid() && (sampled == StationConnected || sampled == ProvisioningAp) && state.worker == Check(sampled)
      modifies `mode, `work, `stationSsid, `lastError, `operationLock, `connection
      modifies `state, `moves, `exceptions, backend
      ensures Valid() && state.worker == Releasing
      ensures backend.profiles == old(backend.profiles)
      ensures old(backend.faults) <= backend.faults && old(exceptions) <= exceptions
      ensures Undisturbed(arrivals) && exceptions == old(exceptions) && backend.faults == old(backend.faults)
              && old(mode) == sampled ==>
        Checked(old(View()), seen, ready, View())
      ensures Undisturbed(arrivals) ==> work == old(work)
    {
      if sampled == StationConnected {
        CheckStation(seen, arrivals);
      } else {
        CheckAp(ready, arrivals);
      }
    }

    /** The mode is sampled before the operation lock is taken. */
    method Sample(arrivals: Arrivals) returns (sampled: Mode)
      requires Valid() && state.worker == Sampling
      modifies `mode, `work, `lastError, `operationLock, `connection, `state, `moves, backend
      ensures Valid() && sampled == old(mode) && state.worker == Check(sampled)
      ensures backend.profiles == old(backend.profiles) && old(backend.faults) <= backend.faults
      ensures Undisturbed(arrivals) ==> View() == old(View())
      ensures Undisturbed(arrivals) ==> work == old(work)
    {
      sampled := mode;
      Went();
      Arrive(arrivals(0));
      Acquire();
      Arrive(arrivals(1));
    }

    /** `reconcile`, with what the reads of the station and of the access point answer. */
    method Reconcile(seen: Option<string>, ready: bool, arrivals: Arrivals)
      requires Valid() && state.worker == Sampling
      modifies `mode, `work, `stationSsid, `lastError, `operationLock, `connection
      modifies `state, `moves, `exceptions, backend
      ensures AtRest()
      ensures backend.profiles == old(backend.profiles)
      ensures old(backend.faults) <= backend.faults && old(exceptions) <= exceptions
      ensures Undisturbed(arrivals) && exceptions == old(exceptions) && backend.faults == old(backend.faults) ==>
        Checked(old(View()), seen, ready, View())
      ensures Undisturbed(arrivals) ==> work == old(work)
    {
      var sampled := Sample(arrivals);
      if sampled == StationConnected || sampled == ProvisioningAp {
        CheckSampled(sampled, seen, ready, arrivals);
      }
      Leave(false, arrivals);
      IdleIsAtRest();
    }

    /** What is remembered of the moment between two turns. */
    ghost function Now(): Moment
      reads this, backend
    {
      Moment(moves, View(), backend.profiles, backend.faults, exceptions)
    }

    /** One turn of `_work_loop`: a queued item is taken and processed, or else the daemon checks
        itself. */
    method TurnOnce(turn: TurnOfLoop)
      requires AtRest()
      modifies `mode, `work, `stationSsid, `lastError, `operationLock, `connection
      modifies `state, `moves, `taken, `exceptions, backend
      ensures AtRest() && TurnDone(turn, old(Now()), Now())
      ensures Held(old(backend.profiles)) ==> Held(backend.profiles)
    {
      Reached();
      Arrive(turn.arrivals(START));
      Reached();
      var processed := ProcessNext(turn.output, turn.arrivals);
      if !processed {
        Arrive(turn.arrivals(12));
        Reconcile(turn.seen, turn.ready, turn.arrivals);
      }
      Reached();
    }

    /** `_work_loop`: every turn does its work, after every turn the daemon is at rest, and no
        credentials are lost. */
    method WorkLoop(turns: seq<TurnOfLoop>) returns (ghost log: seq<Moment>)
      requires AtRest()
      modifies `mode, `work, `stationSsid, `lastError, `operationLock, `connection
      modifies `state, `moves, `taken, `exceptions, backend
      ensures AtRest()
      ensures Held(old(backend.profiles)) ==> Held(backend.profiles)
      ensures |log| == |turns| + 1 && log[0] == old(Now()) && log[|turns|] == Now()
      ensures forall i :: 0 <= i < |turns| ==> TurnDone(turns[i], log[i], log[i + 1])
    {
      log := [Now()];
      for i := 0 to |turns|
        invariant AtRest()
        invariant Held(old(backend.profiles)) ==> Held(backend.profiles)
        invariant |log| == i + 1 && log[0] == old(Now()) && log[i] == Now()
        invariant forall j :: 0 <= j < i ==> TurnDone(turns[j], log[j], log[j + 1])
      {
        TurnOnce(turns[i]);
        log := log + [Now()];
      }
    }
  }

  /** The steps so far, the controller's data, the store, and what has gone wrong so far. */
  datatype Moment = Moment(moves: seq<Move>, core: Core, store: Store, faults: nat, exceptions: nat)

  /** A turn that finds an item, from before or arriving at its start, takes that item and no
      other. If nothing arrives later in the turn it ends with an empty queue; if besides nothing
      fails or is raised, the item comes to its outcome, or the daemon has checked itself. */
  ghost predicate TurnDone(turn: TurnOfLoop, before: Moment, after: Moment) {
    var begun := Run(INITIAL, before.moves + Asks(turn.arrivals(START))).core;
    && TakenBy(after.moves) == TakenBy(before.moves) + (if begun.queue.Some? then [begun.queue.value] else [])
    && (Undisturbed(turn.arrivals) ==> after.core.queue == None)
    && (Undisturbed(turn.arrivals) && after.faults == before.faults && after.exceptions == before.exceptions ==>
          if begun.queue.None? then Checked(begun, turn.seen, turn.ready, after.core)
          else begun.mode == Pending(begun.queue.value) ==>
                 Outcome(begun.queue.value, before.store, turn.output, after.core, after.store))
  }

  /** A daemon starts on a store and boots. If nothing fails, is raised or interferes, it comes to
      rest connected exactly if boot has a profile to pick, and otherwise provisioning. */
  method StartAndBoot(backend: Backend.NetworkManagerBackend, arrivals: Arrivals) returns (c: NetworkController)
    requires backend.radio == Device(NeverRaised, NeverCommanded, None)
    modifies backend
    ensures fresh(c) && c.backend == backend && c.AtRest()
    ensures Held(old(backend.profiles)) ==> Held(backend.profiles)
    ensures Undisturbed(arrivals) && c.exceptions == 0 && backend.faults == old(backend.faults) ==>
      && c.mode == (if Recoverable(old(backend.profiles)) then StationConnected else ProvisioningAp)
      && (c.mode == StationConnected ==> BootedInto(old(backend.profiles), backend.profiles, c.stationSsid))
  {
    c := new NetworkController(backend);
    var verdict := c.RequestBoot();
    assert c.mode == StationConnecting && c.work == Some(BootWork);
    var processed := c.ProcessNext([], arrivals);
  }

  /** What an item comes to if nothing fails and nothing interferes. */
  ghost predicate Outcome(item: WorkItem, before: Store, output: seq<string>, now: Core, store: Store) {
    match item
    case BootWork =>
      && now.error == None
      && now.mode == (if Recoverable(before) then StationConnected else ProvisioningAp)
      && (now.mode == StationConnected ==> BootedInto(before, store, now.ssid))
    case ConnectWork(ssid, password) =>
      && (now.mode == StationConnected || now.mode == ProvisioningAp)
      && Decides(now.mode == StationConnected, now.error, before, ssid, password, output)
      && (now.mode == StationConnected ==> now.ssid == Some(ssid) && Installed(before, store, ssid))
      && (now.mode == ProvisioningAp ==> Unharmed(before, store))
    case ProvisioningWork => now.mode == ProvisioningAp && now.error == None && store == before
  }

  /** What an idle check comes to if nothing fails and nothing interferes. */
  predicate Checked(before: Core, seen: Option<string>, ready: bool, now: Core) {
    match before.mode
    case StationConnected =>
      if seen.Some? then now == before.(ssid := seen)
      else now.mode == ProvisioningAp && now.error == Some("station_connection_lost")
    case ProvisioningAp =>
      if ready then now == before else now.mode == ProvisioningAp && now.error == Some("provisioning_ap_lost")
    case _ => now == before
  }

  /** A profile for `ssid` is the only saved one, and it was not there before. */
  predicate Installed(before: Store, now: Store, ssid: string) {
    exists u :: u in now && u !in before && Sole(now, SAVED_PROFILE, u)
                && now[u] == Profile(SAVED_PROFILE, false, ssid)
  }

  /** Boot's pick is up, alone under the saved name, and its SSID is the one recorded. */
  ghost predicate BootedInto(before: Store, now: Store, ssid: Option<string>) {
    exists u :: Backend.Activated(before, now, u) && ssid == Backend.ReportedSsid(now[u])
  }

  /** A connection that nothing disturbs succeeds exactly if the saved name is not ambiguous, the
      scan lists the network and the password suits it; otherwise the error says which is not so. */
  ghost predicate Decides(
      success: bool, error: Option<string>, before: Store, ssid: string, password: Option<string>, output: seq<string>)
  {
    exists listed ::
      && Listing(Parsed(output), listed)
      && (success <==> !Backend.Ambiguous(before, SAVED_PROFILE) && Backend.Connectable(ssid, password, listed))
      && if success then error == None
         else error.Some?
              && if Backend.Connectable(ssid, password, listed) then error.value == "station_profile_persistence_failed"
                 else Backend.Explains(error.value, ssid, password, listed)
  }

  /** No profile is new, and none but pending ones is gone or changed, except that a profile may
      have stopped to connect on its own. */
  predicate Unharmed(before: Store, now: Store) {
    && (forall v :: v in now ==> v in before)
    && (forall v :: v in before && before[v].name != PENDING_PROFILE ==>
          v in now && (now[v] == before[v] || now[v] == before[v].(autoconnect := false)))
  }

  lemma {:induction false} PromotedIsInstalled(a: Attempt, ssid: string)
    requires IsCanonical(a.before, a.canonical) && a.candidate !in a.before
    ensures Installed(a.before, Promoted(a, ssid), ssid)
  {
    PromotedIsSole(a, ssid);
  }
}
