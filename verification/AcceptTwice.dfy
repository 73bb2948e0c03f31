/** What a harmful expiry of a ride lock lets through, and that nothing else does. */
module AcceptTwice {
  import opened Prelude
  import opened Fleet
  import opened Ledger
  import opened Books
  import opened Rides
  import opened Platform
  import opened PlatformBase
  import opened AcceptOnce

  // ----- runs without another expiry -----

  predicate NoExpiry(steps: seq<Step>) {
    forall i :: 0 <= i < |steps| ==> !steps[i].LockExpires?
  }

  ghost predicate CanReach(s: State, after: State) {
    exists steps :: NoExpiry(steps) && Run(s, steps) == after
  }

  lemma ReachesItself(s: State)
    ensures CanReach(s, s)
  {
    assert NoExpiry([]) && Run(s, []) == s;
  }

  lemma StillNoExpiry(steps: seq<Step>, more: seq<Step>)
    requires NoExpiry(steps) && NoExpiry(more)
    ensures NoExpiry(steps + more)
  {
  }

  lemma ReachesNext(s: State, between: State, step: Step)
    requires CanReach(s, between) && !step.LockExpires?
    ensures CanReach(s, Next(between, step))
  {
    var steps :| NoExpiry(steps) && Run(s, steps) == between;
    var more := steps + [step];
    Then(s, steps, step);
    StillNoExpiry(steps, [step]);
    assert NoExpiry(more) && Run(s, more) == Next(between, step);
  }

  lemma ReachesOne(s: State, step: Step)
    requires !step.LockExpires?
    ensures CanReach(s, Next(s, step))
  {
    ReachesItself(s);
    ReachesNext(s, s, step);
  }

  lemma ReachesTwo(s: State, first: Step, second: Step)
    requires !first.LockExpires? && !second.LockExpires?
    ensures CanReach(s, Next(Next(s, first), second))
  {
    ReachesOne(s, first);
    ReachesNext(s, Next(s, first), second);
  }

  /** A row call reads a ride, and saves what came of it. */
  lemma RowIsSaved(s: State, step: Step, c: CallId, ride: RideId, row: Ride) returns (after: State)
    requires !step.LockExpires? && Next(s, step) == Goto(s, c, Saving(ride, row))
    ensures CanReach(s, after) && after == Save(Goto(s, c, Done), ride, row)
  {
    var loaded := Goto(s, c, Saving(ride, row));
    after := Save(Goto(s, c, Done), ride, row);
    assert loaded.calls[c := Done] == s.calls[c := Done];
    assert Next(loaded, SaveRow(c)) == after;
    ReachesTwo(s, step, SaveRow(c));
  }

  lemma {:induction false} RunOn(s: State, steps: seq<Step>, more: seq<Step>)
    ensures Run(s, steps + more) == Run(Run(s, steps), more)
  {
    if more == [] {
      assert steps + more == steps;
    } else {
      RunOn(s, steps, more[..|more| - 1]);
      assert (steps + more)[..|steps + more| - 1] == steps + more[..|more| - 1];
    }
  }

  lemma ReachesOn(s: State, between: State, after: State)
    requires CanReach(s, between) && CanReach(between, after)
    ensures CanReach(s, after)
  {
    var steps :| NoExpiry(steps) && Run(s, steps) == between;
    var more :| NoExpiry(more) && Run(between, more) == after;
    RunOn(s, steps, more);
    StillNoExpiry(steps, more);
  }

  lemma {:induction false} NoExpiryIsHarmless(s: State, steps: seq<Step>)
    requires NoExpiry(steps)
    ensures AllHarmless(s, steps)
  {
    if steps != [] {
      NoExpiryIsHarmless(s, steps[..|steps| - 1]);
    }
  }

  // ----- one more accept -----

  /** A requested ride under a free lock. */
  predicate Available(s: State, ride: RideId) {
    ride in s.rides && s.rides[ride].status == Requested && ride !in s.locks
  }

  /** A driver who serves nobody. */
  ghost function FreeDriver(rides: map<RideId, Ride>): (driver: DriverId)
    ensures ActiveRides(rides, driver) == {}
  {
    var busy := set r | r in rides && rides[r].driver.Some? :: rides[r].driver.value;
    var driver := Above(busy);
    assert forall r :: r in rides && rides[r].driver.Some? ==> rides[r].driver.value in busy;
    driver
  }

  function Ready(s: State, ride: RideId, driver: DriverId, vehicle: VehicleId): RideCall
    requires ride in s.rides
  {
    AcceptReady(ride, AcceptedBy(s.rides[ride], driver, vehicle, s.now))
  }

  /** The ride row is read under the fresh lock. */
  lemma LocksAndLoads(s: State, ride: RideId, d: CallId, driver: DriverId, vehicle: VehicleId)
    requires Available(s, ride) && d !in s.calls
    ensures CanReach(s, Holding(s, ride, d, AcceptLoaded(ride, s.rides[ride], driver, vehicle)))
  {
    var locking := AcceptLocked(ride, driver, vehicle);
    assert Next(s, AcceptLock(d, ride, driver, vehicle)) == Holding(s, ride, d, locking);
    HoldingGoesOn(s, ride, d, locking, AcceptLoaded(ride, s.rides[ride], driver, vehicle));
    assert Next(Holding(s, ride, d, locking), AcceptLoad(d, true))
        == LoadForAccept(Holding(s, ride, d, locking), d, locking, true);
    ReachesTwo(s, AcceptLock(d, ride, driver, vehicle), AcceptLoad(d, true));
  }

  /** A driver who serves nobody passes the load check. */
  lemma CheckPasses(s: State, d: CallId, call: RideCall)
    requires d in s.calls && s.calls[d] == call && call.AcceptLoaded? && ActiveRides(s.rides, call.driver) == {}
    ensures CanReach(s, Goto(s, d, AcceptReady(call.ride, AcceptedBy(call.row, call.driver, call.vehicle, s.now))))
  {
    assert Next(s, AcceptCheck(d)) == CheckLoad(s, d, call);
    ReachesOne(s, AcceptCheck(d));
  }

  /** A free driver's accept takes the lock and passes every check. */
  lemma FreshAccept(s: State, ride: RideId, d: CallId, driver: DriverId, vehicle: VehicleId) returns (after: State)
    requires Available(s, ride) && d !in s.calls && ActiveRides(s.rides, driver) == {}
    ensures CanReach(s, after) && after == Holding(s, ride, d, Ready(s, ride, driver, vehicle))
  {
    var call := AcceptLoaded(ride, s.rides[ride], driver, vehicle);
    after := Holding(s, ride, d, Ready(s, ride, driver, vehicle));
    LocksAndLoads(s, ride, d, driver, vehicle);
    HoldingGoesOn(s, ride, d, call, Ready(s, ride, driver, vehicle));
    CheckPasses(Holding(s, ride, d, call), d, call);
    ReachesOn(s, Holding(s, ride, d, call), after);
  }

  lemma BothSave(s: State, ride: RideId, c: CallId, d: CallId) returns (after: State)
    requires c != d && c in s.calls && s.calls[c].AcceptReady? && s.calls[c].ride == ride
    requires d in s.calls && s.calls[d].AcceptReady? && s.calls[d].ride == ride
    ensures CanReach(s, after) && !AcceptedOnce(after)
  {
    var once := Next(s, AcceptSave(c));
    assert once.accepted == s.accepted + [ride] && d in once.calls && once.calls[d] == s.calls[d];
    after := Next(once, AcceptSave(d));
    assert after.accepted == once.accepted + [ride];
    var k := |s.accepted|;
    assert after.accepted[k] == ride == after.accepted[k + 1];
    ReachesTwo(s, AcceptSave(c), AcceptSave(d));
  }

  // ----- a call at work under a lock that is free -----

  lemma ReadyIsJoined(s: State, ride: RideId, c: CallId) returns (after: State)
    requires Available(s, ride) && AtWork(s, ride, c) && s.calls[c].AcceptReady?
    ensures CanReach(s, after) && !AcceptedOnce(after)
  {
    var d := Above(s.calls.Keys);
    var both := FreshAccept(s, ride, d, FreeDriver(s.rides), 0);
    after := BothSave(both, ride, c, d);
    ReachesOn(s, both, after);
  }

  /** A second call takes the free lock, the first one's DEL releases it, and a third call takes it again. */
  lemma ReleasingFreesTheNext(s: State, ride: RideId, c: CallId) returns (after: State)
    requires Available(s, ride) && AtWork(s, ride, c) && s.calls[c].Releasing?
    ensures CanReach(s, after) && !AcceptedOnce(after)
  {
    var d := Above(s.calls.Keys);
    var second := FreshAccept(s, ride, d, FreeDriver(s.rides), 0);
    var freed := Next(second, Release(c));
    assert freed == second.(calls := second.calls[c := Done], locks := second.locks - {ride});
    var e := Above(freed.calls.Keys);
    var third := FreshAccept(freed, ride, e, FreeDriver(freed.rides), 0);
    after := BothSave(third, ride, d, e);
    ReachesNext(s, second, Release(c));
    ReachesOn(s, freed, third);
    ReachesOn(s, third, after);
  }

  lemma LoadedIsJoined(s: State, ride: RideId, c: CallId) returns (after: State)
    requires Available(s, ride) && AtWork(s, ride, c) && s.calls[c].AcceptLoaded?
    ensures CanReach(s, after) && !AcceptedOnce(after)
  {
    var checked := Next(s, AcceptCheck(c));
    assert checked == CheckLoad(s, c, s.calls[c]);
    if checked.calls[c].AcceptReady? {
      after := ReadyIsJoined(checked, ride, c);
    } else {
      after := ReleasingFreesTheNext(checked, ride, c);
    }
    ReachesOne(s, AcceptCheck(c));
    ReachesOn(s, checked, after);
  }

  lemma LockedIsJoined(s: State, ride: RideId, c: CallId) returns (after: State)
    requires Available(s, ride) && AtWork(s, ride, c) && s.calls[c].AcceptLocked?
    ensures CanReach(s, after) && !AcceptedOnce(after)
  {
    var loaded := Next(s, AcceptLoad(c, true));
    assert loaded == LoadForAccept(s, c, s.calls[c], true);
    after := LoadedIsJoined(loaded, ride, c);
    ReachesOne(s, AcceptLoad(c, true));
    ReachesOn(s, loaded, after);
  }

  /** A completion of a ride that is not in progress goes straight to its DEL. */
  lemma CompleterIsJoined(s: State, ride: RideId, c: CallId) returns (after: State)
    requires Available(s, ride) && AtWork(s, ride, c) && s.calls[c].CompleteLocked?
    ensures CanReach(s, after) && !AcceptedOnce(after)
  {
    var refused := Next(s, CompleteRun(c));
    assert Complete(s, ride, s.calls[c].driver) == s;
    assert refused == Goto(s, c, Releasing(ride));
    after := ReleasingFreesTheNext(refused, ride, c);
    ReachesOne(s, CompleteRun(c));
    ReachesOn(s, refused, after);
  }

  lemma WorkerIsJoined(s: State, ride: RideId, c: CallId) returns (after: State)
    requires Available(s, ride) && AtWork(s, ride, c)
    ensures CanReach(s, after) && !AcceptedOnce(after)
  {
    match s.calls[c]
    case AcceptLocked(_, _, _) => after := LockedIsJoined(s, ride, c);
    case AcceptLoaded(_, _, _, _) => after := LoadedIsJoined(s, ride, c);
    case AcceptReady(_, _) => after := ReadyIsJoined(s, ride, c);
    case CompleteLocked(_, _) => after := CompleterIsJoined(s, ride, c);
    case Releasing(_) => after := ReleasingFreesTheNext(s, ride, c);
  }

  /** Riders create rides until this one is there. */
  lemma {:induction false} RideIsCreated(s: State, ride: RideId) returns (after: State)
    requires ride !in s.rides && ride >= s.nextRide
    ensures CanReach(s, after) && after.calls == s.calls && after.locks == s.locks
    ensures ride in after.rides && after.rides[ride].status == Requested
    decreases ride - s.nextRide
  {
    var created := Next(s, CreateRide(0, 0, Shared));
    assert created == s.(rides := s.rides[s.nextRide := NewRide(0, 0, Shared, s.now)], nextRide := s.nextRide + 1);
    ReachesOne(s, CreateRide(0, 0, Shared));
    if s.nextRide == ride {
      after := created;
    } else {
      after := RideIsCreated(created, ride);
      ReachesOn(s, created, after);
    }
  }

  /** With the lock gone from under a call at work on an open ride, two accepts of it can be saved. */
  lemma HarmIsDone(s: State, ride: RideId) returns (later: seq<Step>)
    requires Harmful(s, LockExpires(ride))
    ensures var expired := Next(s, LockExpires(ride));
            AllHarmless(expired, later) && !AcceptedOnce(Run(expired, later))
  {
    var expired := Next(s, LockExpires(ride));
    assert expired == s.(locks := s.locks - {ride});
    var c :| AtWork(s, ride, c);
    var after: State;
    if ride in s.rides {
      after := WorkerIsJoined(expired, ride, c);
    } else {
      var created := RideIsCreated(expired, ride);
      after := WorkerIsJoined(created, ride, c);
      ReachesOn(expired, created, after);
    }
    later :| NoExpiry(later) && Run(expired, later) == after;
    NoExpiryIsHarmless(expired, later);
  }

  /**
   * After any run so far without harm, the expiry of a ride's lock is safe, in
   * that no later run without a harmful expiry accepts a ride twice, if and
   * only if no call is at work on that ride or the ride is not REQUESTED (any
   * more, if it was created at all).
   */
  lemma ExpiryIsSafeExactly(s: State, steps: seq<Step>, ride: RideId)
    requires Initial(s) && AllHarmless(s, steps)
    ensures var before, expired := Run(s, steps), Next(Run(s, steps), LockExpires(ride));
            (forall later :: AllHarmless(expired, later) ==> AcceptedOnce(Run(expired, later)))
            <==> !(Open(before, ride) && exists c :: AtWork(before, ride, c))
  {
    var before, expired := Run(s, steps), Next(Run(s, steps), LockExpires(ride));
    RunKeepsExclusive(s, steps);
    if Harmful(before, LockExpires(ride)) {
      var later := HarmIsDone(before, ride);
    } else {
      StepKeepsExclusive(before, LockExpires(ride));
      StepKeepsRides(before, LockExpires(ride));
      StepKeepsRequests(before, LockExpires(ride));
      forall later | AllHarmless(expired, later) ensures AcceptedOnce(Run(expired, later)) {
        RunKeepsExclusive(expired, later);
      }
    }
  }

  // ----- one such run -----

  const QUOTE := NewRide(5, 0, Shared, 0)

  predicate Drafted(s: State, calls: map<CallId, RideCall>) {
    s.now == 0 && s.rides == map[0 := QUOTE] && s.accepted == [] && s.calls == calls
  }

  /** Driver 10 passes every check, and then the lock runs out. */
  lemma AcceptOutlivesItsLock(s: State) returns (more: seq<Step>)
    requires Drafted(s, map[]) && s.locks == map[]
    ensures var after := Next(Run(s, more), LockExpires(0));
            Drafted(after, map[1 := AcceptReady(0, AcceptedBy(QUOTE, 10, 20, 0))]) && after.locks == map[]
  {
    var ready := FreshAccept(s, 0, 1, 10, 20);
    more :| NoExpiry(more) && Run(s, more) == ready;
  }

  lemma FirstDriver(s: State) returns (steps: seq<Step>)
    requires Initial(s) && s.now == 0 && s.nextRide == 0
    ensures var after := Run(s, steps + [LockExpires(0)]);
            Drafted(after, map[1 := AcceptReady(0, AcceptedBy(QUOTE, 10, 20, 0))]) && after.locks == map[]
  {
    var create := [CreateRide(5, 0, Shared)];
    var created := Run(s, create);
    Begin(s, create[0]);
    var more := AcceptOutlivesItsLock(created);
    steps := create + more;
    RunOn(s, create, more);
    Then(s, steps, LockExpires(0));
  }

  lemma TwoSaves(s: State, first: RideCall, second: RideCall)
    requires first.AcceptReady? && first.ride == 0 && second.AcceptReady? && second.ride == 0
    requires s.accepted == [] && s.calls == map[1 := first, 2 := second]
    ensures Next(Next(s, AcceptSave(1)), AcceptSave(2)).accepted == [0, 0]
  {
    var once := Next(s, AcceptSave(1));
    assert once.accepted == [0] && once.calls[2] == second;
    assert Next(once, AcceptSave(2)).accepted == [0] + [0];
  }

  /** From an empty platform: a lock runs out before its holder saves, and drivers 10 and 11 both accept the ride. */
  lemma ExpiryLetsTwoAccept(s: State) returns (steps: seq<Step>, later: seq<Step>)
    requires Initial(s) && s.now == 0 && s.nextRide == 0
    ensures Run(s, steps + [LockExpires(0)]).calls == map[1 := AcceptReady(0, AcceptedBy(QUOTE, 10, 20, 0))]
    ensures NoExpiry(later) && Run(Run(s, steps + [LockExpires(0)]), later).accepted == [0, 0]
  {
    steps := FirstDriver(s);
    var expired := Run(s, steps + [LockExpires(0)]);
    var both := FreshAccept(expired, 0, 2, 11, 21);
    var more :| NoExpiry(more) && Run(expired, more) == both;
    later := more + [AcceptSave(1)] + [AcceptSave(2)];
    Then(expired, more, AcceptSave(1));
    Then(expired, more + [AcceptSave(1)], AcceptSave(2));
    TwoSaves(both, both.calls[1], both.calls[2]);
  }
}
