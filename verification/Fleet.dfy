/** Which vehicle serves which ride category (src/rides/utils/category-matching.util.ts). */
module Fleet {

  datatype VehicleType = Keke | Bike | Car | Courier

  datatype RideCategory = Private | Shared | Okada | CarRide

  const MAX_ACTIVE_SHARED_RIDES := 4

  const ALL_CATEGORIES: seq<RideCategory> := [Private, Shared, Okada, CarRide]

  const EXCLUSIVE_CATEGORIES: seq<RideCategory> := [Private, Okada, CarRide]

  function RequiredVehicle(category: RideCategory): VehicleType {
    match category
    case Private => Keke
    case Shared => Keke
    case Okada => Bike
    case CarRide => Car
  }

  predicate VehicleTypeMatchesCategory(vehicle: VehicleType, category: RideCategory) {
    RequiredVehicle(category) == vehicle
  }

  predicate IsExclusiveCategory(category: RideCategory) {
    category in EXCLUSIVE_CATEGORIES
  }

  /** The categories, in table order, that some owned vehicle type serves. */
  function AllowedCategories(owned: set<VehicleType>,
        categories: seq<RideCategory> := ALL_CATEGORIES): (allowed: seq<RideCategory>)
    ensures forall c :: c in allowed <==> c in categories && RequiredVehicle(c) in owned
  {
    if categories == [] then []
    else (if RequiredVehicle(categories[0]) in owned then [categories[0]] else [])
         + AllowedCategories(owned, categories[1..])
  }

  /** Every category is either pooled or exclusive, and only SHARED is pooled. */
  lemma OnlySharedPools(category: RideCategory)
    ensures IsExclusiveCategory(category) <==> category != Shared
  {
  }

  /** A driver is offered exactly the categories `acceptRide` would let one of their vehicles serve. */
  lemma OffersMatchAcceptance(owned: set<VehicleType>, category: RideCategory)
    ensures category in AllowedCategories(owned) <==> exists v :: v in owned && VehicleTypeMatchesCategory(v, category)
  {
  }

  lemma CarsServeCar(owned: set<VehicleType>)
    ensures AllowedCategories(owned, [CarRide]) == if Car in owned then [CarRide] else []
  {
    assert AllowedCategories(owned, [CarRide][1..]) == [];
  }

  lemma BikesServeOkada(owned: set<VehicleType>)
    ensures AllowedCategories(owned, [Okada, CarRide])
            == (if Bike in owned then [Okada] else []) + (if Car in owned then [CarRide] else [])
  {
    CarsServeCar(owned);
    assert [Okada, CarRide][1..] == [CarRide];
  }

  lemma KekesAlsoShare(owned: set<VehicleType>)
    ensures AllowedCategories(owned, [Shared, Okada, CarRide])
            == (if Keke in owned then [Shared] else [])
               + (if Bike in owned then [Okada] else []) + (if Car in owned then [CarRide] else [])
  {
    BikesServeOkada(owned);
    assert [Shared, Okada, CarRide][1..] == [Okada, CarRide];
  }

  /** Whatever a driver owns: a keke adds both keke categories, a bike OKADA, a car CAR, a courier vehicle nothing. */
  lemma WhatIsOffered(owned: set<VehicleType>)
    ensures AllowedCategories(owned) ==
            (if Keke in owned then [Private, Shared] else [])
            + (if Bike in owned then [Okada] else [])
            + (if Car in owned then [CarRide] else [])
  {
    KekesAlsoShare(owned);
    assert ALL_CATEGORIES[1..] == [Shared, Okada, CarRide];
  }
}
