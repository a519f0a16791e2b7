/** Which requests the daemon accepts, what follows each, and that a station connection always
    stays within reach. */
module Requests {
  import opened Options
  import opened NetworkState
  import opened RadioState
  import opened Controller
  import opened Interleaving
  import opened DaemonSafety

  /** A connection is accepted from the access point and from another station. */
  lemma {:induction false} ConnectIsAcceptedIff(c: Core, ssid: string, password: Option<string>)
    ensures var (after, verdict) := ConnectRequested(c, ssid, password);
      && (verdict == Accepted <==> c.queue == None && (c.mode == StationConnected || c.mode == ProvisioningAp))
      && (verdict == Busy <==> c.queue != None && (c.mode == StationConnected || c.mode == ProvisioningAp))
      && after == if verdict == Accepted then Core(Transition, c.ssid, None, Some(ConnectWork(ssid, password))) else c
  {
  }

  /** The access point is raised from everywhere but a running transition; where it is up nothing
      happens. */
  lemma {:induction false} ProvisioningIsAcceptedIff(c: Core)
    ensures var (after, verdict) := ProvisioningAsked(c);
      && (verdict == Accepted <==>
            c.queue == None && (c.mode == StationConnecting || c.mode == StationConnected || c.mode == Error))
      && (verdict == Unchanged <==> c.mode == ProvisioningAp)
      && (verdict == Busy <==>
            c.queue != None && (c.mode == StationConnecting || c.mode == StationConnected || c.mode == Error))
      && after == if verdict == Accepted then Core(Transition, c.ssid, None, Some(ProvisioningWork)) else c
  {
  }

  /** Boot starts the daemon, and again after an error. */
  lemma {:induction false} BootIsAcceptedIff(c: Core)
    ensures var (after, verdict) := BootRequested(c);
      && (verdict == Accepted <==> c.queue == None && (c.mode == Unconfigured || c.mode == Error))
      && (verdict == Busy <==> c.queue != None && (c.mode == Unconfigured || c.mode == Error))
      && after == if verdict == Accepted then Core(StationConnecting, c.ssid, c.error, Some(BootWork)) else c
  {
  }

  // ---------------------------------------------------------------------------------------
  // Within reach

  ghost predicate Leads(s: State, later: State) {
    exists moves :: Run(s, moves) == later
  }

  lemma {:induction false} Stay(s: State)
    ensures Leads(s, s)
  {
    assert Run(s, []) == s;
  }

  lemma {:induction false} Go(s: State, later: State, move: Move)
    requires Leads(s, later)
    ensures Leads(s, Step(later, move))
  {
    var moves :| Run(s, moves) == later;
    assert (moves + [move])[..|moves|] == moves;
    assert Run(s, moves + [move]) == Step(later, move);
  }

  predicate AtEase(s: State) {
    s.worker == Idle && s.core.queue == None
  }

  /** The IPC thread finishes what it is doing. */
  lemma {:induction false} FinishScan(s: State) returns (later: State)
    requires Inv(s) && AtEase(s)
    ensures Leads(s, later) && later == s.(ipc := Listening, lock := Free)
  {
    Stay(s);
    later := s;
    if later.ipc == AwaitingScan {
      Go(s, later, Ipc(Scan));
      later := Step(later, Ipc(Scan));
    }
    if later.ipc == Scanning {
      Go(s, later, Ipc(Scan));
      later := Step(later, Ipc(Scan));
    }
  }

  /** An accepted item is taken and its processing begins. */
  lemma {:induction false} TakeUp(s: State, later: State, item: WorkItem) returns (begun: State)
    requires Leads(s, later) && later.worker == Idle && later.lock == Free && later.core.queue == Some(item)
    ensures Leads(s, begun)
    ensures begun == later.(core := later.core.(queue := None), worker := Begin(item), lock := HeldByWorker)
  {
    var move := Worker(YES, later.radio);
    Go(s, later, move);
    var taken := Step(later, move);
    Go(s, taken, move);
    begun := Step(taken, move);
  }

  /** The backend succeeds. */
  lemma {:induction false} Join(s: State, later: State) returns (connected: State)
    requires Leads(s, later) && (later.worker == ActivatingSaved || later.worker.ConnectingTo?)
    requires Unsettled(later.core.mode)
    ensures Leads(s, connected) && connected.core.mode == StationConnected
  {
    var answer := Worker(YES, STATION_UP);
    Go(s, later, answer);
    var joined := Step(later, answer);
    assert joined.worker == Joined(None);
    Go(s, joined, Worker(YES, STATION_UP));
    connected := Step(joined, Worker(YES, STATION_UP));
  }

  /** From every state at rest that the daemon can reach, in error and in the race too, some
      requests and some answers of the backend connect it to a station. */
  lemma {:induction false} StationStaysInReach(before: seq<Move>) returns (connected: State)
    requires AtEase(Run(INITIAL, before))
    ensures Leads(Run(INITIAL, before), connected) && connected.core.mode == StationConnected
  {
    var s := Run(INITIAL, before);
    RunKeepsInv(before);
    var ready := FinishScan(s);
    if s.core.mode == StationConnected {
      return ready;
    }
    if s.core.mode == ProvisioningAp {
      var request := Ipc(Connect("home", None));
      Go(s, ready, request);
      var begun := TakeUp(s, Step(ready, request), ConnectWork("home", None));
      connected := Join(s, begun);
    } else {
      Go(s, ready, Ipc(Request.Boot));
      var begun := TakeUp(s, Step(ready, Ipc(Request.Boot)), BootWork);
      Go(s, begun, Worker(YES, begun.radio));
      connected := Join(s, Step(begun, Worker(YES, begun.radio)));
    }
  }
}
