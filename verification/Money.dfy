/** Fares and the 95 / 4 / 1 split, in integer kobo (src/common/utils/money.util.ts). */
module Money {
  import opened Prelude
  import opened Fleet

  const DRIVER_SHARE := 0.95
  const RIDER_CASHBACK_SHARE := 0.01

  /** Halves round towards plus infinity, for negative numbers too. */
  function Round(x: real): int {
    (x + 0.5).Floor
  }

  function ToKobo(naira: real): int {
    Round(naira * 100.0)
  }

  function ToNaira(kobo: int): real {
    kobo as real / 100.0
  }

  datatype FareSplit = FareSplit(totalKobo: int, driverKobo: int, platformKobo: int, riderKobo: int)

  function SplitFareKobo(finalFareNaira: real): FareSplit {
    var totalKobo := ToKobo(finalFareNaira);
    var driverKobo := (totalKobo as real * DRIVER_SHARE).Floor;
    var riderKobo := (totalKobo as real * RIDER_CASHBACK_SHARE).Floor;
    FareSplit(totalKobo, driverKobo, totalKobo - driverKobo - riderKobo, riderKobo)
  }

  /** Base fare and price per kilometre, in naira. */
  function Tariff(category: RideCategory): (int, int) {
    match category
    case Shared => (250, 50)
    case Okada => (300, 70)
    case CarRide => (1000, 200)
    case Private => (500, 100)
  }

  /** The quoted fare for a distance in hundredths of a kilometre. */
  function CalculateFare(hundredthsKm: nat, category: RideCategory): real {
    var (base, perKm) := Tariff(category);
    var distance := hundredthsKm as real / 100.0;
    ToNaira(Round((base as real + distance * perKm as real) * 100.0))
  }

  /** Whole-kobo amounts survive storage as naira and conversion back. */
  lemma KoboRoundTrip(kobo: int)
    ensures ToKobo(ToNaira(kobo)) == kobo
  {
  }

  lemma FloorOfFraction(n: int, share: int)
    ensures (n as real * (share as real / 100.0)).Floor == share * n / 100
  {
  }

  /**
   * The three shares sum back to the fare; the driver never gets more than 95%
   * nor the rider more than 1%, both by less than a kobo; and no share is
   * negative exactly when the fare is not.
   */
  lemma SplitConserves(naira: real)
    ensures var s := SplitFareKobo(naira);
            && s.totalKobo == ToKobo(naira) == s.driverKobo + s.platformKobo + s.riderKobo
            && 100 * s.driverKobo <= 95 * s.totalKobo < 100 * s.driverKobo + 100
            && 100 * s.riderKobo <= s.totalKobo < 100 * s.riderKobo + 100
            && (s.totalKobo >= 0 <==> s.driverKobo >= 0 && s.platformKobo >= 0 && s.riderKobo >= 0)
  {
  }

  /** The platform keeps its 4% plus a rounding remainder of at most 1.76 kobo, reached only at 81 mod 100. */
  lemma PlatformRemainder(naira: real)
    ensures var s := SplitFareKobo(naira);
            && 0 <= 100 * s.platformKobo - 4 * s.totalKobo <= 176
            && (100 * s.platformKobo - 4 * s.totalKobo == 176 <==> s.totalKobo % 100 == 81)
  {
    var t := ToKobo(naira);
    FloorOfFraction(t, 95);
    FloorOfFraction(t, 1);
    FlooredShares(t / 100, t % 100);
  }

  lemma FlooredShares(hundreds: int, rest: int)
    requires 0 <= rest < 100
    ensures var t := 100 * hundreds + rest;
            95 * t / 100 == 95 * hundreds + rest - (rest + 19) / 20
  {
  }

  function PlatformShares(fares: seq<int>): seq<int> {
    seq(|fares|, i requires 0 <= i < |fares| => SplitFareKobo(ToNaira(fares[i])).platformKobo)
  }

  /**
   * Over any sequence of fares the platform's total stays within 1.76 kobo a
   * ride of exactly 4% of gross, and reaches that only if every fare does.
   */
  lemma {:induction false} PlatformNeverDrifts(fares: seq<int>)
    ensures 0 <= 100 * Sum(PlatformShares(fares)) - 4 * Sum(fares) <= 176 * |fares|
    ensures 100 * Sum(PlatformShares(fares)) - 4 * Sum(fares) == 176 * |fares| <==>
            forall i :: 0 <= i < |fares| ==> fares[i] % 100 == 81
  {
    if fares != [] {
      var k := |fares| - 1;
      var front := fares[..k];
      PlatformNeverDrifts(front);
      PlatformRemainder(ToNaira(fares[k]));
      KoboRoundTrip(fares[k]);
      assert PlatformShares(fares)[..k] == PlatformShares(front);
      assert forall i :: 0 <= i < k ==> front[i] == fares[i];
    }
  }

  lemma QuoteInKobo(base: int, perKm: int, hundredthsKm: nat)
    ensures Round((base as real + hundredthsKm as real / 100.0 * perKm as real) * 100.0)
            == 100 * base + perKm * hundredthsKm
  {
  }

  /** The published price list, in kobo for a distance in hundredths of a kilometre. */
  function PriceInKobo(hundredthsKm: nat, category: RideCategory): int {
    match category
    case Private => 50_000 + 100 * hundredthsKm
    case Shared => 25_000 + 50 * hundredthsKm
    case Okada => 30_000 + 70 * hundredthsKm
    case CarRide => 100_000 + 200 * hundredthsKm
  }

  /** Every quote is a whole number of kobo: the price list's, with nothing rounded away. */
  lemma FareIsWholeKobo(hundredthsKm: nat, category: RideCategory)
    ensures ToKobo(CalculateFare(hundredthsKm, category)) == PriceInKobo(hundredthsKm, category)
    ensures CalculateFare(hundredthsKm, category) == ToNaira(PriceInKobo(hundredthsKm, category))
  {
    var (base, perKm) := Tariff(category);
    QuoteInKobo(base, perKm, hundredthsKm);
    KoboRoundTrip(100 * base + perKm * hundredthsKm);
  }

  /** A shared seat costs exactly half a private ride of the same length. */
  lemma SharedIsHalfPrivate(hundredthsKm: nat)
    ensures 2.0 * CalculateFare(hundredthsKm, Shared) == CalculateFare(hundredthsKm, Private)
  {
    FareIsWholeKobo(hundredthsKm, Shared);
    FareIsWholeKobo(hundredthsKm, Private);
  }

  /** Rounding a request to kobo never lifts it past a whole-kobo allowance. */
  lemma RoundingRespectsAllowance(amount: real, remainingKobo: int)
    requires amount <= ToNaira(remainingKobo)
    ensures ToKobo(amount) <= remainingKobo
  {
  }

  /** The amount falls on a half kobo, where rounding has to pick a side. */
  predicate IsHalfKobo(amount: real) {
    (amount * 100.0 - 0.5) == (amount * 100.0 - 0.5).Floor as real
  }

  /** Taking back a negated amount undoes adding it, unless it falls on a half kobo: then a kobo stays behind. */
  lemma NegationRounds(amount: real)
    ensures ToKobo(-amount) == -ToKobo(amount) + if IsHalfKobo(amount) then 1 else 0
  {
    var x := amount * 100.0;
    assert (-amount) * 100.0 == -x;
    RoundOfNegation(x);
  }

  lemma RoundOfNegation(x: real)
    ensures Round(-x) == -Round(x) + if x - 0.5 == (x - 0.5).Floor as real then 1 else 0
  {
    var k := Round(x);
    if x - 0.5 == (x - 0.5).Floor as real {
      assert (x - 0.5).Floor == k - 1;
      assert -x + 0.5 == (1 - k) as real;
    } else {
      assert x + 0.5 != k as real;
      assert -k as real < -x + 0.5 < (-k + 1) as real;
    }
  }
}
