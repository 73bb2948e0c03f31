/** The append-only ledger and its sums (src/ledger). Amounts are kobo; an entry's id is its position. */
module Ledger {
  import opened Prelude

  type RideId = nat

  datatype EntryType = RideFareDriver | RideFarePlatform | RideFareRiderCashback | DriverFuelSupport | DriverPayout

  datatype Owner = DriverAccount(driver: nat) | RiderAccount(rider: nat) | PlatformAccount

  datatype Status = Pending | Completed | Failed | Reversed

  datatype Entry = Entry(
    rideId: Option<RideId>,
    kind: EntryType,
    owner: Owner,
    amount: int,
    status: Status,
    createdAt: int)
  {
    /** Counts towards a balance: written, and not rejected. */
    predicate Stands() { status == Pending || status == Completed }
  }

  type Entries = seq<Entry>

  const DAY := 24 * 60 * 60 * 1000

  /** Instants between two bounds, both included. */
  datatype Window = Window(first: int, last: int)
  {
    predicate Holds(at: int) { first <= at <= last }
  }

  /** todayWindow: from 00:00:00.000 to 23:59:59.999 of the day it is now. */
  function TodayWindow(now: int): Window {
    var midnight := now / DAY * DAY;
    Window(midnight, midnight + DAY - 1)
  }

  /** The partial unique index on (rideId, type). */
  ghost predicate UniqueIndex(entries: Entries) {
    forall i, j :: 0 <= i < j < |entries| && entries[i].rideId.Some? && entries[i].rideId == entries[j].rideId ==>
      entries[i].kind != entries[j].kind
  }

  /** The row breaks the unique index against the given rows. */
  predicate Clashes(entries: Entries, e: Entry) {
    e.rideId.Some? && exists i :: 0 <= i < |entries| && entries[i].rideId == e.rideId && entries[i].kind == e.kind
  }

  /** INSERT row by row; one clash aborts the caller's transaction. */
  function WriteEntries(entries: Entries, rows: Entries): (result: Option<Entries>)
    ensures result.Some? ==> result.value == entries + rows
    ensures result.Some? && UniqueIndex(entries) ==> UniqueIndex(entries + rows)
    ensures result.None? <==> exists k :: 0 <= k < |rows| && Clashes(entries + rows[..k], rows[k])
  {
    if rows == [] then
      assert entries + rows == entries;
      Some(entries)
    else
      var front, last := rows[..|rows| - 1], rows[|rows| - 1];
      assert entries + rows == (entries + front) + [last];
      assert forall k :: 0 <= k < |front| ==> front[..k] == rows[..k];
      var written := WriteEntries(entries, front);
      if written.None? then
        assert exists k :: 0 <= k < |front| && Clashes(entries + front[..k], front[k]);
        None
      else if Clashes(written.value, last) then
        assert Clashes(entries + rows[..|front|], rows[|front|]);
        None
      else Some(written.value + [last])
  }

  /** UPDATE of one entry's status; an unknown id affects nothing. */
  function SettleEntry(entries: Entries, id: nat, status: Status): Entries {
    if id < |entries| then entries[id := entries[id].(status := status)] else entries
  }

  // ----- sums -----

  type Weight = Entry -> int

  function Weights(entries: Entries, weight: Weight): seq<int> {
    seq(|entries|, i requires 0 <= i < |entries| => weight(entries[i]))
  }

  function Total(entries: Entries, weight: Weight): int {
    Sum(Weights(entries, weight))
  }

  lemma TotalConcat(entries: Entries, rows: Entries, weight: Weight)
    ensures Total(entries + rows, weight) == Total(entries, weight) + Total(rows, weight)
  {
    assert Weights(entries + rows, weight) == Weights(entries, weight) + Weights(rows, weight);
    SumConcat(Weights(entries, weight), Weights(rows, weight));
  }

  lemma TotalOne(e: Entry, weight: Weight)
    ensures Total([e], weight) == weight(e)
  {
    assert Weights([e], weight) == [weight(e)];
    SumOne(weight(e));
  }

  lemma TotalAppend(entries: Entries, e: Entry, weight: Weight)
    ensures Total(entries + [e], weight) == Total(entries, weight) + weight(e)
  {
    TotalConcat(entries, [e], weight);
    TotalOne(e, weight);
  }

  lemma TotalThree(entries: Entries, e: Entry, f: Entry, g: Entry, weight: Weight)
    ensures Total(entries + [e, f, g], weight) == Total(entries, weight) + weight(e) + weight(f) + weight(g)
  {
    TotalAppend(entries, e, weight);
    TotalAppend(entries + [e], f, weight);
    TotalAppend(entries + [e] + [f], g, weight);
    assert entries + [e, f, g] == entries + [e] + [f] + [g];
  }

  lemma TotalSettle(entries: Entries, id: nat, status: Status, weight: Weight)
    requires id < |entries|
    ensures Total(SettleEntry(entries, id, status), weight)
            == Total(entries, weight) - weight(entries[id]) + weight(entries[id].(status := status))
  {
    var after := SettleEntry(entries, id, status);
    assert Weights(after, weight) == Weights(entries, weight)[id := weight(after[id])];
    SumUpdate(Weights(entries, weight), id, weight(after[id]));
  }

  lemma TotalOfNone(entries: Entries, weight: Weight)
    requires forall i :: 0 <= i < |entries| ==> weight(entries[i]) == 0
    ensures Total(entries, weight) == 0
  {
    SumOfZeros(Weights(entries, weight));
  }

  // ----- the queries the services run -----

  /** What a driver's wallet caches. */
  function WalletWeight(driver: nat): Weight {
    (e: Entry) => if e.owner == DriverAccount(driver) && e.Stands() then e.amount else 0
  }

  /** What a rider's cashback balance caches. */
  function CashbackWeight(rider: nat): Weight {
    (e: Entry) => if e.owner == RiderAccount(rider) && e.Stands() then e.amount else 0
  }

  /** What totalCompletedRides counts. */
  function FareCountWeight(driver: nat): Weight {
    (e: Entry) => if e.kind == RideFareDriver && e.owner == DriverAccount(driver) then 1 else 0
  }

  /** sumForStakeholder over the fuel support of a window. */
  function FuelWeight(driver: nat, window: Window): Weight {
    (e: Entry) =>
      if e.owner == DriverAccount(driver) && e.kind == DriverFuelSupport && e.Stands() && window.Holds(e.createdAt)
      then e.amount
      else 0
  }

  /** getPlatformRevenue. */
  function PlatformWeight(): Weight {
    (e: Entry) => if e.owner == PlatformAccount && e.status == Completed then e.amount else 0
  }

  function KindWeight(kind: EntryType): Weight {
    (e: Entry) => if e.kind == kind && e.status == Completed then e.amount else 0
  }

  /** The report's gross settled fare: platform + driver earnings + rider cashback. */
  function GrossSettledFare(entries: Entries): int {
    Total(entries, PlatformWeight())
    + Total(entries, KindWeight(RideFareDriver))
    + Total(entries, KindWeight(RideFareRiderCashback))
  }

  function RideCountWeight(ride: RideId): Weight {
    (e: Entry) => if e.rideId == Some(ride) then 1 else 0
  }

  function RideAmountWeight(ride: RideId): Weight {
    (e: Entry) => if e.rideId == Some(ride) then e.amount else 0
  }
}
