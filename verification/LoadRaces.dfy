/** What the pooling limits are worth when accepts of one driver run at the same time. */
module LoadRaces {
  import opened Prelude
  import opened Fleet
  import opened Ledger
  import opened Books
  import opened Rides
  import opened Platform
  import opened PlatformBase
  import opened AcceptTwice
  import DispatchLaws

  /** The row makes one more active ride of the driver, and the load checks would refuse it now. */
  ghost predicate TooMuch(rides: map<RideId, Ride>, ride: RideId, row: Ride, driver: DriverId) {
    && row.Active() && row.driver == Some(driver) && ride !in ActiveRides(rides, driver)
    && LoadError(rides, driver, row.category).Some?
  }

  ghost predicate Overloads(s: State, step: Step, driver: DriverId) {
    Saves(s, step) && TooMuch(s.rides, s.calls[step.c].ride, s.calls[step.c].row, driver)
  }

  lemma SavedLoadIsExact(rides: map<RideId, Ride>, ride: RideId, row: Ride, driver: DriverId)
    requires DispatchLaws.LoadOk(rides, driver) && CopyOk(rides, ride, row)
    ensures DispatchLaws.LoadOk(rides[ride := row], driver) <==> !TooMuch(rides, ride, row, driver)
  {
    if row.Active() && row.driver == Some(driver) && ride !in ActiveRides(rides, driver) {
      DispatchLaws.LoadErrorIsExact(rides, ride, row, driver);
    } else {
      DispatchLaws.SaveKeepsLoad(rides, ride, row, driver);
    }
  }

  lemma CompletionKeepsLoad(s: State, ride: RideId, serving: DriverId, driver: DriverId)
    requires DispatchLaws.LoadOk(s.rides, driver)
    ensures DispatchLaws.LoadOk(Complete(s, ride, serving).rides, driver)
  {
    if ride in s.rides {
      DispatchLaws.SaveKeepsLoad(s.rides, ride, FinishedRow(s.rides[ride], s.now), driver);
    }
  }

  /**
   * From a state in which a driver's load is within the limits, a step keeps
   * it so if and only if it does not save an active row that the load checks,
   * made at that moment, would refuse.
   */
  lemma StepKeepsLoadExactly(s: State, step: Step, driver: DriverId)
    requires RidesOk(s) && DispatchLaws.LoadOk(s.rides, driver)
    ensures DispatchLaws.LoadOk(Next(s, step).rides, driver) <==> !Overloads(s, step, driver)
  {
    if Saves(s, step) {
      SavesSaveTheRow(s, step);
      assert CallOk(s.rides, s.calls[step.c]);
      SavedLoadIsExact(s.rides, s.calls[step.c].ride, s.calls[step.c].row, driver);
    } else if step.CreateRide? {
      var row := NewRide(step.user, step.hundredthsKm, step.category, s.now);
      DispatchLaws.SaveKeepsLoad(s.rides, s.nextRide, row, driver);
    } else if step.CompleteRun? {
      if step.c in s.calls && s.calls[step.c].CompleteLocked? {
        CompletionKeepsLoad(s, s.calls[step.c].ride, s.calls[step.c].driver, driver);
      }
    } else {
      OthersLeaveTheRows(s, step);
    }
  }

  ghost predicate NeverOverloads(s: State, steps: seq<Step>, driver: DriverId) {
    steps == [] || (&& NeverOverloads(s, steps[..|steps| - 1], driver)
                    && !Overloads(Run(s, steps[..|steps| - 1]), steps[|steps| - 1], driver))
  }

  /** So in every interleaving without such a save, the driver has one exclusive ride or at most four, all SHARED. */
  lemma {:induction false} LoadStaysWithinLimits(s: State, steps: seq<Step>, driver: DriverId)
    requires Initial(s) && NeverOverloads(s, steps, driver)
    ensures DispatchLaws.LoadOk(Run(s, steps).rides, driver)
  {
    if steps == [] {
      assert ActiveRides(s.rides, driver) == {};
    } else {
      LoadStaysWithinLimits(s, steps[..|steps| - 1], driver);
      RunKeepsBase(s, steps[..|steps| - 1]);
      StepKeepsLoadExactly(Run(s, steps[..|steps| - 1]), steps[|steps| - 1], driver);
    }
  }

  // ----- when an accept overloads -----

  lemma {:induction false} RunIsForward(s: State, steps: seq<Step>)
    requires RidesOk(s)
    ensures RidesOk(Run(s, steps)) && Forward(s.rides, Run(s, steps).rides)
  {
    if steps != [] {
      RunIsForward(s, steps[..|steps| - 1]);
      StepKeepsRides(Run(s, steps[..|steps| - 1]), steps[|steps| - 1]);
    }
  }

  /** What the load checks allowed, they allow of any lighter load. */
  lemma LighterIsAllowed(rides: map<RideId, Ride>, after: map<RideId, Ride>, driver: DriverId, category: RideCategory)
    requires LoadError(rides, driver, category).None? && Forward(rides, after)
    requires ActiveRides(after, driver) <= ActiveRides(rides, driver)
    ensures LoadError(after, driver, category).None?
  {
    var before, now := ActiveRides(rides, driver), ActiveRides(after, driver);
    assert before == now + (before - now);
  }

  /**
   * An accept that passed the load check overloads its driver only if, between
   * the check and the save, another ride became active under that driver.
   */
  lemma OverloadNeedsAnotherRide(s: State, c: CallId, later: seq<Step>)
    requires RidesOk(s) && c in s.calls && s.calls[c].AcceptLoaded?
    requires LoadError(s.rides, s.calls[c].driver, s.calls[c].row.category).None?
    requires var checked := Next(s, AcceptCheck(c));
             c in checked.calls && c in Run(checked, later).calls && Run(checked, later).calls[c] == checked.calls[c]
    ensures var driver, after := s.calls[c].driver, Run(Next(s, AcceptCheck(c)), later);
            Overloads(after, AcceptSave(c), driver) ==>
              exists r :: r in ActiveRides(after.rides, driver) && r !in ActiveRides(s.rides, driver)
  {
    var driver, checked := s.calls[c].driver, Next(s, AcceptCheck(c));
    var after := Run(checked, later);
    assert checked == CheckLoad(s, c, s.calls[c]);
    StepKeepsRides(s, AcceptCheck(c));
    RunIsForward(checked, later);
    if ActiveRides(after.rides, driver) <= ActiveRides(s.rides, driver) {
      LighterIsAllowed(s.rides, after.rides, driver, s.calls[c].row.category);
    }
  }

  // ----- one such run -----

  const FIRST := NewRide(5, 0, Private, 0)
  const SECOND := NewRide(6, 0, Private, 0)

  function ReadyFor(ride: RideId, row: Ride): RideCall {
    AcceptReady(ride, AcceptedBy(row, 10, 20, 0))
  }

  lemma TwoRequests(s: State) returns (requested: State)
    requires Initial(s) && s.now == 0 && s.nextRide == 0
    ensures CanReach(s, requested) && ActiveRides(requested.rides, 10) == {}
    ensures requested == s.(rides := map[0 := FIRST, 1 := SECOND], nextRide := 2)
  {
    requested := Next(Next(s, CreateRide(5, 0, Private)), CreateRide(6, 0, Private));
    ReachesTwo(s, CreateRide(5, 0, Private), CreateRide(6, 0, Private));
  }

  lemma BothSaved(s: State)
    requires s.rides == map[0 := FIRST, 1 := SECOND]
    requires s.calls == map[1 := ReadyFor(0, FIRST), 2 := ReadyFor(1, SECOND)]
    ensures !DispatchLaws.LoadOk(Next(Next(s, AcceptSave(1)), AcceptSave(2)).rides, 10)
  {
    var once := Next(s, AcceptSave(1));
    SavesSaveTheRow(s, AcceptSave(1));
    assert once.calls[2] == s.calls[2];
    SavesSaveTheRow(once, AcceptSave(2));
    DispatchLaws.TwoWithAnExclusive(Next(once, AcceptSave(2)).rides, 10, 0, 1);
  }

  /**
   * From an empty platform, with every lock outlasting its holder: one driver
   * accepts two exclusive rides at once, and has both.
   */
  lemma TwoExclusivesAtOnce(s: State) returns (steps: seq<Step>)
    requires Initial(s) && s.now == 0 && s.nextRide == 0
    ensures NoExpiry(steps) && !DispatchLaws.LoadOk(Run(s, steps).rides, 10)
  {
    var requested := TwoRequests(s);
    var one := FreshAccept(requested, 0, 1, 10, 20);
    var two := FreshAccept(one, 1, 2, 10, 20);
    ReachesOn(s, requested, one);
    ReachesOn(s, one, two);
    BothSaved(two);
    ReachesTwo(two, AcceptSave(1), AcceptSave(2));
    var saved := Next(Next(two, AcceptSave(1)), AcceptSave(2));
    ReachesOn(s, two, saved);
    steps :| NoExpiry(steps) && Run(s, steps) == saved;
  }
}
