/** The ride lock: at most one accept of a ride is ever saved, as long as no expiry is harmful. */
module AcceptOnce {
  import opened Ledger
  import opened Rides
  import opened Platform
  import opened PlatformBase

  /** The call is between its SET NX and its DEL. */
  predicate InLock(call: RideCall) {
    call.AcceptLocked? || call.AcceptLoaded? || call.AcceptReady? || call.CompleteLocked? || call.Releasing?
  }

  predicate AtWork(s: State, ride: RideId, c: CallId) {
    c in s.calls && InLock(s.calls[c]) && s.calls[c].ride == ride
  }

  /** The ride can still be accepted: its row is REQUESTED, or yet to be created. */
  predicate Open(s: State, ride: RideId) {
    if ride in s.rides then s.rides[ride].status == Requested else ride >= s.nextRide
  }

  /** The lock expires while a call is at work under it on a ride that can still be accepted. */
  ghost predicate Harmful(s: State, step: Step) {
    step.LockExpires? && Open(s, step.ride) && exists c :: AtWork(s, step.ride, c)
  }

  /** The accept has read the row while it was REQUESTED, and is on its way to save it. */
  predicate Carries(s: State, ride: RideId, c: CallId) {
    c in s.calls && (s.calls[c].AcceptLoaded? || s.calls[c].AcceptReady?) && s.calls[c].ride == ride
  }

  /** While the ride can be accepted, whoever is at work on it holds its lock. */
  predicate HoldsLock(s: State, ride: RideId, c: CallId) {
    AtWork(s, ride, c) && Open(s, ride) ==> ride in s.locks && s.locks[ride] == c
  }

  predicate AcceptedOnce(s: State) {
    forall i, j :: 0 <= i < j < |s.accepted| ==> s.accepted[i] != s.accepted[j]
  }

  /** One accept at most carries a ride, one nobody accepted before; and an accepted ride is REQUESTED no more. */
  ghost predicate Exclusive(s: State) {
    && (forall ride, c :: HoldsLock(s, ride, c))
    && (forall ride, c, d :: Carries(s, ride, c) && Carries(s, ride, d) ==> c == d)
    && (forall ride, c :: Carries(s, ride, c) ==> ride !in s.accepted)
    && (forall r :: r in s.accepted ==> r in s.rides && s.rides[r].status != Requested)
    && AcceptedOnce(s)
  }

  // ----- what each step does to it -----

  lemma NextRideOnlyGrows(s: State, step: Step)
    ensures Next(s, step).nextRide >= s.nextRide
    ensures step.CreateRide? ==> Next(s, step).nextRide == s.nextRide + 1
    ensures step.CreateRide? ==> Next(s, step).rides.Keys == s.rides.Keys + {s.nextRide}
  {
  }

  lemma OpensAreForward(rides: map<RideId, Ride>, after: map<RideId, Ride>, ride: RideId)
    requires Forward(rides, after) && ride in rides
    ensures ride in after && (after[ride].status == Requested ==> rides[ride].status == Requested)
  {
  }

  /** Rides are closed for good. */
  lemma OpenOnlyCloses(s: State, step: Step, ride: RideId)
    requires RidesOk(s) && Open(Next(s, step), ride)
    ensures Open(s, ride)
  {
    StepKeepsRides(s, step);
    NextRideOnlyGrows(s, step);
    if ride in s.rides {
      OpensAreForward(s.rides, Next(s, step).rides, ride);
    } else if !step.CreateRide? {
      OnlyRequestsAreNew(s, step, ride);
    }
  }

  lemma OnlyRequestsAreNew(s: State, step: Step, ride: RideId)
    requires RidesOk(s) && !step.CreateRide?
    ensures ride in Next(s, step).rides ==> ride in s.rides
  {
    if Saves(s, step) {
      SavesSaveTheRow(s, step);
      assert CallOk(s.rides, s.calls[step.c]);
    } else if !step.CompleteRun? {
      OthersLeaveTheRows(s, step);
    }
  }

  /** The call a step moves; every other call stays as it was. */
  predicate Moves(step: Step, c: CallId) {
    match step
    case AcceptLock(d, _, _, _) => c == d
    case AcceptLoad(d, _) => c == d
    case AcceptCheck(d) => c == d
    case AcceptSave(d) => c == d
    case MarkArrived(d, _, _) => c == d
    case StartRide(d, _, _) => c == d
    case CancelRide(d, _, _) => c == d
    case SaveRow(d) => c == d
    case CompleteLock(d, _, _) => c == d
    case CompleteRun(d) => c == d
    case Release(d) => c == d
    case Stop(d) => c == d
    case _ => false
  }

  predicate IsRowStep(step: Step) {
    step.MarkArrived? || step.StartRide? || step.CancelRide? || step.SaveRow?
  }

  lemma RowStepsMoveOne(s: State, step: Step, c: CallId)
    requires !Moves(step, c) && IsRowStep(step)
    ensures c in Next(s, step).calls <==> c in s.calls
    ensures c in s.calls ==> Next(s, step).calls[c] == s.calls[c]
  {
  }

  lemma OtherCallsStay(s: State, step: Step, c: CallId)
    requires !Moves(step, c)
    ensures c in Next(s, step).calls <==> c in s.calls
    ensures c in s.calls ==> Next(s, step).calls[c] == s.calls[c]
  {
    if SparesRides(step) {
      SparedRides(s, step);
    } else if IsRowStep(step) {
      RowStepsMoveOne(s, step, c);
    }
  }

  lemma DoneIsDone(s: State, step: Step, c: CallId)
    requires c in s.calls && s.calls[c].Done?
    ensures c in Next(s, step).calls && Next(s, step).calls[c].Done?
  {
    if !Moves(step, c) { OtherCallsStay(s, step, c); }
  }

  /** A call that stopped takes no further part in any later run. */
  lemma {:induction false} StoppedForGood(s: State, c: CallId, later: seq<Step>)
    requires c in s.calls
    ensures c in Run(Next(s, Stop(c)), later).calls && Run(Next(s, Stop(c)), later).calls[c].Done?
  {
    if later != [] {
      StoppedForGood(s, c, later[..|later| - 1]);
      DoneIsDone(Run(Next(s, Stop(c)), later[..|later| - 1]), later[|later| - 1], c);
    }
  }

  /** The call takes the lock in this step. */
  predicate TakesLock(s: State, step: Step, ride: RideId, c: CallId) {
    && (step.AcceptLock? || step.CompleteLock?) && step.c == c && step.ride == ride && c !in s.calls && ride !in s.locks
  }

  /** A call is at work on a ride from its SET NX on. */
  lemma WorkStartsWithTheLock(s: State, step: Step, ride: RideId, c: CallId)
    requires AtWork(Next(s, step), ride, c)
    ensures AtWork(s, ride, c) || TakesLock(s, step, ride, c)
  {
    if !Moves(step, c) { OtherCallsStay(s, step, c); }
  }

  lemma TakenLockIsHeld(s: State, step: Step, ride: RideId, c: CallId)
    requires TakesLock(s, step, ride, c)
    ensures ride in Next(s, step).locks && Next(s, step).locks[ride] == c
  {
  }

  lemma OtherStepsKeepLocks(s: State, step: Step)
    requires !step.AcceptLock? && !step.CompleteLock? && !step.Release? && !step.LockExpires?
    ensures Next(s, step).locks == s.locks
  {
  }

  /** A held lock goes by expiry, or by the DEL of a call at work on that ride. */
  lemma LocksGo(s: State, step: Step, ride: RideId)
    requires ride in s.locks
    ensures || (ride in Next(s, step).locks && Next(s, step).locks[ride] == s.locks[ride])
            || step == LockExpires(ride)
            || (&& step.Release? && AtWork(s, ride, step.c)
                && step.c in Next(s, step).calls && Next(s, step).calls[step.c] == Done)
  {
    match step
    case AcceptLock(_, _, _, _) =>
    case CompleteLock(_, _, _) =>
    case Release(_) =>
    case LockExpires(_) =>
    case _ => OtherStepsKeepLocks(s, step);
  }

  lemma StepKeepsHolders(s: State, step: Step, ride: RideId, c: CallId)
    requires RidesOk(s) && Exclusive(s) && !Harmful(s, step)
    ensures HoldsLock(Next(s, step), ride, c)
  {
    if AtWork(Next(s, step), ride, c) && Open(Next(s, step), ride) {
      OpenOnlyCloses(s, step, ride);
      WorkStartsWithTheLock(s, step, ride, c);
      if AtWork(s, ride, c) {
        assert HoldsLock(s, ride, c);
        LocksGo(s, step, ride);
        assert step.Release? ==> HoldsLock(s, ride, step.c);
      } else {
        TakenLockIsHeld(s, step, ride, c);
      }
    }
  }

  /** An accept starts carrying a ride by reading its REQUESTED row under the lock. */
  lemma CarryStartsWithALoad(s: State, step: Step, ride: RideId, c: CallId)
    requires Carries(Next(s, step), ride, c) && !Carries(s, ride, c)
    ensures AtWork(s, ride, c) && ride in s.rides && s.rides[ride].status == Requested
    ensures Next(s, step).accepted == s.accepted
  {
    if !Moves(step, c) { OtherCallsStay(s, step, c); }
  }

  lemma OneCarrierAtMost(s: State, step: Step, ride: RideId, c: CallId, d: CallId)
    requires Exclusive(s) && Carries(Next(s, step), ride, c) && Carries(Next(s, step), ride, d)
    ensures c == d
  {
    if !Carries(s, ride, c) { CarryStartsWithALoad(s, step, ride, c); }
    if !Carries(s, ride, d) { CarryStartsWithALoad(s, step, ride, d); }
    assert HoldsLock(s, ride, c) && HoldsLock(s, ride, d);
  }

  lemma OthersSaveNoAccept(s: State, step: Step)
    requires !(step.AcceptSave? && Saves(s, step))
    ensures Next(s, step).accepted == s.accepted
  {
    if SparesRides(step) { SparedRides(s, step); }
  }

  /** What a step adds to the accepted rides is what the saving accept carried. */
  lemma SavesAreCarried(s: State, step: Step)
    ensures || Next(s, step).accepted == s.accepted
            || (&& step.AcceptSave? && step.c in s.calls && s.calls[step.c].AcceptReady?
                && Next(s, step).accepted == s.accepted + [s.calls[step.c].ride]
                && Carries(s, s.calls[step.c].ride, step.c)
                && !Carries(Next(s, step), s.calls[step.c].ride, step.c))
  {
    if !(step.AcceptSave? && Saves(s, step)) { OthersSaveNoAccept(s, step); }
  }

  lemma CarriedStaysUnaccepted(s: State, step: Step, ride: RideId, c: CallId)
    requires Exclusive(s) && Carries(Next(s, step), ride, c)
    ensures ride !in Next(s, step).accepted
  {
    if Carries(s, ride, c) {
      SavesAreCarried(s, step);
    } else {
      CarryStartsWithALoad(s, step, ride, c);
    }
  }

  lemma AcceptedAreClosed(s: State, step: Step, ride: RideId)
    requires RidesOk(s) && Exclusive(s) && ride in Next(s, step).accepted
    ensures ride in Next(s, step).rides && Next(s, step).rides[ride].status != Requested
  {
    StepKeepsRides(s, step);
    SavesAreCarried(s, step);
    if ride !in s.accepted {
      assert CallOk(s.rides, s.calls[step.c]);
      assert Next(s, step).rides == s.rides[ride := s.calls[step.c].row];
    }
  }

  /** From an exclusive state, every step but a harmful expiry leads to one. */
  lemma StepKeepsExclusive(s: State, step: Step)
    requires RidesOk(s) && Exclusive(s) && !Harmful(s, step)
    ensures Exclusive(Next(s, step))
  {
    var after := Next(s, step);
    forall ride, c ensures HoldsLock(after, ride, c) { StepKeepsHolders(s, step, ride, c); }
    forall ride, c, d | Carries(after, ride, c) && Carries(after, ride, d) ensures c == d {
      OneCarrierAtMost(s, step, ride, c, d);
    }
    forall ride, c | Carries(after, ride, c) ensures ride !in after.accepted {
      CarriedStaysUnaccepted(s, step, ride, c);
    }
    forall r | r in after.accepted ensures r in after.rides && after.rides[r].status != Requested {
      AcceptedAreClosed(s, step, r);
    }
    SavesAreCarried(s, step);
  }

  ghost predicate AllHarmless(s: State, steps: seq<Step>) {
    steps == [] || (&& AllHarmless(s, steps[..|steps| - 1])
                    && !Harmful(Run(s, steps[..|steps| - 1]), steps[|steps| - 1]))
  }

  lemma {:induction false} RunKeepsExclusive(s: State, steps: seq<Step>)
    requires RidesOk(s) && RequestsOk(s) && Exclusive(s) && AllHarmless(s, steps)
    ensures Base(Run(s, steps)) && Exclusive(Run(s, steps))
  {
    RunKeepsBase(s, steps);
    if steps != [] {
      RunKeepsExclusive(s, steps[..|steps| - 1]);
      StepKeepsExclusive(Run(s, steps[..|steps| - 1]), steps[|steps| - 1]);
    }
  }

  /**
   * While unlocked cancels, arrivals and starts interleave freely, and locks
   * expire at any step that is not harmful, no ride is ever accepted twice.
   */
  lemma AcceptedAtMostOnce(s: State, steps: seq<Step>)
    requires Initial(s) && AllHarmless(s, steps)
    ensures Exclusive(Run(s, steps)) && AcceptedOnce(Run(s, steps))
  {
    RunKeepsExclusive(s, steps);
  }
}
