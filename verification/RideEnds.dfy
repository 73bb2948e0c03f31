/** Which COMPLETED and CANCELLED rides stay so, while rows read earlier are saved late. */
module RideEnds {
  import opened Prelude
  import opened Ledger
  import opened Books
  import opened Rides
  import opened Platform
  import opened PlatformBase
  import opened AcceptTwice
  import opened WalletWitnesses

  /** The step saves a row of the ride, read earlier, under another status. */
  predicate Undoes(s: State, step: Step, ride: RideId)
    requires ride in s.rides
  {
    Saves(s, step) && s.calls[step.c].ride == ride && s.calls[step.c].row.status != s.rides[ride].status
  }

  /** A ride that is over leaves its status at a step if and only if the step is such a save. */
  lemma StepUndoesExactly(s: State, step: Step, ride: RideId)
    requires RidesOk(s) && ride in s.rides && s.rides[ride].Over()
    ensures var after := Next(s, step);
            ride in after.rides && (after.rides[ride].status != s.rides[ride].status <==> Undoes(s, step, ride))
  {
    if Saves(s, step) {
      SavesSaveTheRow(s, step);
    } else if step.CompleteRun? {
      if step.c in s.calls && s.calls[step.c].CompleteLocked? {
        assert Complete(s, s.calls[step.c].ride, s.calls[step.c].driver).rides[ride] == s.rides[ride];
      }
    } else if !step.CreateRide? {
      OthersLeaveTheRows(s, step);
    }
  }

  /** A call still to save a row of the ride that it read under another status. */
  predicate MayUndo(call: RideCall, ride: RideId, status: RideStatus) {
    && (call.AcceptLoaded? || call.AcceptReady? || call.Saving?) && call.ride == ride
    && (call.AcceptLoaded? || call.row.status != status)
  }

  ghost predicate Ended(s: State, ride: RideId, status: RideStatus) {
    ride in s.rides && s.rides[ride].status == status && forall c :: c in s.calls ==> !MayUndo(s.calls[c], ride, status)
  }

  /** Everything that may undo the ride after the step could undo it before. */
  ghost predicate ReadsNoUndo(s: State, after: State, ride: RideId, status: RideStatus) {
    forall c :: c in after.calls && MayUndo(after.calls[c], ride, status) ==>
      c in s.calls && MayUndo(s.calls[c], ride, status)
  }

  lemma AcceptReadsNoUndo(s: State, step: Step, ride: RideId)
    requires ride in s.rides && s.rides[ride].Over()
    requires step.AcceptLock? || step.AcceptLoad? || step.AcceptCheck? || step.AcceptSave?
    ensures ReadsNoUndo(s, Next(s, step), ride, s.rides[ride].status)
  {
  }

  /** A ride that is over is not ARRIVED or started any more, and stays CANCELLED when cancelled again. */
  lemma RowCallReadsNoUndo(s: State, step: Step, ride: RideId)
    requires ride in s.rides && s.rides[ride].Over()
    requires step.MarkArrived? || step.StartRide? || step.CancelRide?
    ensures ReadsNoUndo(s, Next(s, step), ride, s.rides[ride].status)
  {
  }

  lemma StepReadsNoUndo(s: State, step: Step, ride: RideId)
    requires ride in s.rides && s.rides[ride].Over()
    ensures ReadsNoUndo(s, Next(s, step), ride, s.rides[ride].status)
  {
    if step.AcceptLock? || step.AcceptLoad? || step.AcceptCheck? || step.AcceptSave? {
      AcceptReadsNoUndo(s, step, ride);
    } else if step.MarkArrived? || step.StartRide? || step.CancelRide? {
      RowCallReadsNoUndo(s, step, ride);
    } else if SparesRides(step) {
      SparedRides(s, step);
    }
  }

  lemma {:induction false} EndedStays(s: State, later: seq<Step>, ride: RideId, status: RideStatus)
    requires RidesOk(s) && Ended(s, ride, status) && s.rides[ride].Over()
    ensures RidesOk(Run(s, later)) && Ended(Run(s, later), ride, status)
  {
    if later != [] {
      var before, last := Run(s, later[..|later| - 1]), later[|later| - 1];
      EndedStays(s, later[..|later| - 1], ride, status);
      StepKeepsRides(before, last);
      StepUndoesExactly(before, last, ride);
      StepReadsNoUndo(before, last, ride);
    }
  }

  // ----- an undo in flight can be done -----

  /** Every call is where it was, and so is every ride the driver does not serve. */
  ghost predicate KeepsTheRest(s: State, after: State, driver: DriverId) {
    && (forall r :: r in s.rides && r !in ActiveRides(s.rides, driver) ==>
          r in after.rides && after.rides[r] == s.rides[r])
    && forall c :: c in s.calls ==> c in after.calls && after.calls[c] == s.calls[c]
  }

  lemma OneIsCancelled(s: State, driver: DriverId, r: RideId) returns (after: State)
    requires r in ActiveRides(s.rides, driver)
    ensures CanReach(s, after) && KeepsTheRest(s, after, driver)
    ensures ActiveRides(after.rides, driver) == ActiveRides(s.rides, driver) - {r}
  {
    var row := CancelledRow(s.rides[r], ByAdmin("")).value;
    var d := Above(s.calls.Keys);
    after := RowIsSaved(s, CancelRide(d, r, ByAdmin("")), d, r, row);
  }

  /** An administrator cancels the driver's rides one by one. */
  lemma {:induction false} DriverIsFreed(s: State, driver: DriverId) returns (after: State)
    ensures CanReach(s, after) && KeepsTheRest(s, after, driver) && ActiveRides(after.rides, driver) == {}
    decreases ActiveRides(s.rides, driver)
  {
    if ActiveRides(s.rides, driver) == {} {
      after := s;
      ReachesItself(s);
    } else {
      var r :| r in ActiveRides(s.rides, driver);
      var cancelled := OneIsCancelled(s, driver, r);
      after := DriverIsFreed(cancelled, driver);
      ReachesOn(s, cancelled, after);
    }
  }

  lemma SaveUndoes(s: State, ride: RideId, c: CallId) returns (after: State)
    requires ride in s.rides && c in s.calls && MayUndo(s.calls[c], ride, s.rides[ride].status)
    requires !s.calls[c].AcceptLoaded?
    ensures CanReach(s, after) && ride in after.rides && after.rides[ride].status != s.rides[ride].status
  {
    var step := if s.calls[c].Saving? then SaveRow(c) else AcceptSave(c);
    after := Next(s, step);
    ReachesOne(s, step);
  }

  lemma AcceptUndoes(s: State, ride: RideId, c: CallId) returns (after: State)
    requires ride in s.rides && s.rides[ride].Over() && c in s.calls
    requires s.calls[c].AcceptLoaded? && s.calls[c].ride == ride
    ensures CanReach(s, after) && ride in after.rides && after.rides[ride].status != s.rides[ride].status
  {
    var call := s.calls[c];
    var freed := DriverIsFreed(s, call.driver);
    CheckPasses(freed, c, call);
    var ready := Goto(freed, c, AcceptReady(ride, AcceptedBy(call.row, call.driver, call.vehicle, freed.now)));
    after := SaveUndoes(ready, ride, c);
    ReachesOn(s, freed, ready);
    ReachesOn(s, ready, after);
  }

  lemma UndoIsDone(s: State, ride: RideId, c: CallId) returns (later: seq<Step>)
    requires ride in s.rides && s.rides[ride].Over() && c in s.calls
    requires MayUndo(s.calls[c], ride, s.rides[ride].status)
    ensures var after := Run(s, later); ride in after.rides && after.rides[ride].status != s.rides[ride].status
  {
    var after: State;
    if s.calls[c].AcceptLoaded? {
      after := AcceptUndoes(s, ride, c);
    } else {
      after := SaveUndoes(s, ride, c);
    }
    later :| NoExpiry(later) && Run(s, later) == after;
  }

  /**
   * After any run so far, a COMPLETED or CANCELLED ride keeps its status in
   * every later run if and only if no call in flight read the ride's row under
   * another status and has yet to save it.
   */
  lemma EndIsFinalExactly(s: State, steps: seq<Step>, ride: RideId)
    requires Initial(s) && ride in Run(s, steps).rides && Run(s, steps).rides[ride].Over()
    ensures var before := Run(s, steps);
            var status := before.rides[ride].status;
            (forall later :: var after := Run(before, later); ride in after.rides && after.rides[ride].status == status)
            <==> forall c :: c in before.calls ==> !MayUndo(before.calls[c], ride, status)
  {
    var before := Run(s, steps);
    var status := before.rides[ride].status;
    RunKeepsBase(s, steps);
    if Ended(before, ride, status) {
      forall later ensures Ended(Run(before, later), ride, status) {
        EndedStays(before, later, ride, status);
      }
    } else {
      var c :| c in before.calls && MayUndo(before.calls[c], ride, status);
      var later := UndoIsDone(before, ride, c);
    }
  }

  // ----- one such run -----

  /** The cancel in flight saves over the completed row. */
  lemma CompletionIsOverwritten(s: State, row: Ride) returns (after: State)
    requires 0 in s.settled && 5 in s.calls && s.calls[5] == Saving(0, row)
    ensures CanReach(s, after) && 0 in after.settled && after.rides == s.rides[0 := row]
  {
    after := Next(s, SaveRow(5));
    ReachesOne(s, SaveRow(5));
  }

  lemma CompletionSettles(s: State) returns (after: State)
    requires 0 in s.rides && s.rides[0].driver == Some(0) && s.rides[0].user == 5 && s.rides[0].status == InProgress
    requires s.rides[0].estimatedFare == 50_000 && s.books == ROADSIDE.books && s.now == 0
    requires 4 in s.calls && s.calls[4] == CompleteLocked(0, 0)
    ensures CanReach(s, after) && 0 in after.settled
    ensures forall c :: c in s.calls && c != 4 ==> c in after.calls && after.calls[c] == s.calls[c]
  {
    SettlementPays();
    assert Complete(s, 0, 0).settled == s.settled + [0];
    after := Next(s, CompleteRun(4));
    ReachesOne(s, CompleteRun(4));
  }

  lemma CancelReads(s: State) returns (after: State)
    requires Driving(s)
    ensures CanReach(s, after) && after == Goto(s, 5, Saving(0, CancelledRow(s.rides[0], ByAdmin("")).value))
  {
    after := Next(s, CancelRide(5, 0, ByAdmin("")));
    ReachesOne(s, CancelRide(5, 0, ByAdmin("")));
  }

  lemma CancelSpansACompletion(s: State) returns (after: State)
    requires Driving(s)
    ensures CanReach(s, after) && 0 in after.settled && 0 in after.rides && after.rides[0].status == RideCancelled
  {
    var row := CancelledRow(s.rides[0], ByAdmin("")).value;
    var read := CancelReads(s);
    var locked := LockIsTaken(read);
    ReachesOn(s, read, locked);
    var settled := CompletionSettles(locked);
    ReachesOn(s, locked, settled);
    after := CompletionIsOverwritten(settled, row);
    ReachesOn(s, settled, after);
  }

  /** A cancel that read the ride before its completion, and saves after it: the fare is settled, the ride CANCELLED. */
  lemma SettledAndCancelled() returns (steps: seq<Step>)
    ensures NoExpiry(steps) && Initial(ROADSIDE)
    ensures var after := Run(ROADSIDE, steps);
            0 in after.settled && 0 in after.rides && after.rides[0].status == RideCancelled
  {
    var driving := RideIsUnderWay();
    var after := CancelSpansACompletion(driving);
    ReachesOn(ROADSIDE, driving, after);
    steps :| NoExpiry(steps) && Run(ROADSIDE, steps) == after;
  }
}
