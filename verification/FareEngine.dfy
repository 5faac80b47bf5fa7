/** The fare calculation of `fare-engine.service.ts` in exact arithmetic. `MathRound` is Math.round of ECMA-262,
    section 21.3.2.28 (ties go up); `ToFixed` is Number.prototype.toFixed, section 21.1.3.3 (ties go away from zero),
    read back as a number. */
module FareEngine {
  import opened Base

  datatype FareConfig = FareConfig(ratePerKm: real, feePercent: real, minFee: real, minFeeThreshold: real)

  datatype Fare = Fare(
    roundedDistanceKm: real,
    baseFare: real,
    discountPercent: real,
    discountAmount: real,
    fareAfterDiscount: real,
    appFeeAmount: real,
    finalFare: real)

  datatype FareResult = Calculated(fare: Fare) | InvalidDiscount | DiscountExceedsFare

  function MathRound(x: real): int {
    (x + 0.5).Floor
  }

  function RoundTo(x: real, scale: real): real
    requires scale > 0.0
  {
    MathRound(x * scale) as real / scale
  }

  function ToFixed(x: real, scale: real): real
    requires scale > 0.0
  {
    if x < 0.0 then -RoundTo(-x, scale) else RoundTo(x, scale)
  }

  function Max(x: real, y: real): real {
    if x < y then y else x
  }

  predicate Within(x: real, y: real, eps: real) {
    x - eps <= y <= x + eps
  }

  predicate WholeCents(x: real) {
    (x * 100.0).Floor as real == x * 100.0
  }

  predicate WholeMetres(km: real) {
    (km * 1000.0).Floor as real == km * 1000.0
  }

  function Money(value: real): real {
    if value <= 0.0 then 0.0 else MathRound(value * 100.0) as real / 100.0
  }

  function BaseFare(cfg: FareConfig, distanceKm: real): real {
    Max(0.0, ToFixed(distanceKm, 1000.0) * cfg.ratePerKm)
  }

  predicate DiscountAccepted(baseFare: real, discount: Option<real>) {
    baseFare <= 0.0 || discount.None? || 0.0 <= discount.value <= baseFare
  }

  function ResolvedDiscount(baseFare: real, discount: Option<real>): real {
    if baseFare <= 0.0 || discount.None? then 0.0
    else if discount.value == 0.0 then 0.0
    else Money(discount.value)
  }

  function DiscountPercent(baseFare: real, discount: real): real {
    if baseFare <= 0.0 || discount <= 0.0 then 0.0
    else
      var ratio := discount / baseFare * 100.0;
      var bounded := if ratio > 100.0 then 100.0 else Max(ratio, 0.0);
      MathRound(bounded * 100.0) as real / 100.0
  }

  function AppFee(cfg: FareConfig, fareAfterDiscount: real): real {
    if fareAfterDiscount <= 0.0 || fareAfterDiscount < cfg.minFeeThreshold then cfg.minFee
    else PercentageFee(cfg, fareAfterDiscount)
  }

  function PercentageFee(cfg: FareConfig, amount: real): real {
    Money(PercentOf(amount, cfg.feePercent))
  }

  function PercentOf(amount: real, percent: real): real {
    amount * percent / 100.0
  }

  function CalculateFare(cfg: FareConfig, distanceKm: real, discount: Option<real>): FareResult {
    var baseFare := BaseFare(cfg, distanceKm);
    if baseFare > 0.0 && discount.Some? && discount.value < 0.0 then InvalidDiscount
    else if baseFare > 0.0 && discount.Some? && discount.value > baseFare then DiscountExceedsFare
    else
      var resolved := ResolvedDiscount(baseFare, discount);
      var after := Money(baseFare - resolved);
      var fee := AppFee(cfg, after);
      Calculated(Fare(ToFixed(distanceKm, 1000.0), baseFare, DiscountPercent(baseFare, resolved), resolved, after, fee,
                      Money(after + fee)))
  }

  // ----- rounding -----

  lemma MathRoundIsNear(x: real)
    ensures x - 0.5 < MathRound(x) as real <= x + 0.5
  {
  }

  lemma MathRoundIsMonotone(x: real, y: real)
    requires x <= y
    ensures MathRound(x) <= MathRound(y)
  {
  }

  lemma MoneyIsNear(x: real)
    ensures x >= 0.0 ==> Within(Money(x), x, 0.005)
    ensures WholeCents(Money(x)) && Money(x) >= 0.0
    ensures x < 0.0 ==> Money(x) == 0.0
  {
    MathRoundIsNear(x * 100.0);
    if x > 0.0 {
      assert Money(x) * 100.0 == MathRound(x * 100.0) as real;
    }
  }

  lemma MoneyIsMonotone(x: real, y: real)
    requires x <= y
    ensures Money(x) <= Money(y)
  {
    if x > 0.0 {
      assert x * 100.0 <= y * 100.0;
      MathRoundIsMonotone(x * 100.0, y * 100.0);
    }
    MoneyIsNear(y);
  }

  lemma MoneyKeepsWholeCents(x: real)
    requires WholeCents(x) && x >= 0.0
    ensures Money(x) == x
  {
    var n := (x * 100.0).Floor;
    assert (n as real + 0.5).Floor == n;
    assert x == n as real / 100.0;
  }

  /** Sums of whole cents are whole cents. */
  lemma WholeCentsAdd(x: real, y: real)
    requires WholeCents(x) && WholeCents(y)
    ensures WholeCents(x + y)
  {
    var m, n := (x * 100.0).Floor, (y * 100.0).Floor;
    assert (x + y) * 100.0 == (m + n) as real;
  }

  lemma Products(x: real, y: real, scale: real)
    requires x <= y && scale > 0.0
    ensures x * scale <= y * scale
  {
    assert (y - x) * scale >= 0.0;
  }

  lemma OrderedProducts(x: real, y: real, scale: real)
    requires 0.0 <= x <= y && scale > 0.0
    ensures 0.0 <= x * scale <= y * scale
  {
    Products(x, y, scale);
  }

  lemma OrderedRoundings(x: real, y: real)
    requires 0.0 <= x <= y
    ensures 0 <= MathRound(x) <= MathRound(y)
  {
  }

  lemma Divided(m: real, n: real, scale: real)
    requires 0.0 <= m <= n && scale > 0.0
    ensures 0.0 <= m / scale <= n / scale
  {
    Quotients(0.0, m, scale);
    Quotients(m, n, scale);
  }

  lemma RoundToIsMonotone(x: real, y: real, scale: real)
    requires 0.0 <= x <= y && scale > 0.0
    ensures 0.0 <= RoundTo(x, scale) <= RoundTo(y, scale)
  {
    OrderedProducts(x, y, scale);
    OrderedRoundings(x * scale, y * scale);
    Divided(MathRound(x * scale) as real, MathRound(y * scale) as real, scale);
  }

  lemma ToFixedIsMonotone(x: real, y: real, scale: real)
    requires x <= y && scale > 0.0
    ensures ToFixed(x, scale) <= ToFixed(y, scale)
  {
    if y < 0.0 {
      RoundToIsMonotone(-y, -x, scale);
    } else if x >= 0.0 {
      RoundToIsMonotone(x, y, scale);
    } else {
      RoundToIsMonotone(0.0, -x, scale);
      RoundToIsMonotone(0.0, y, scale);
    }
  }

  lemma Quotients(x: real, y: real, scale: real)
    requires x <= y && scale > 0.0
    ensures x / scale <= y / scale
  {
    assert (y - x) / scale >= 0.0;
    assert y / scale - x / scale == (y - x) / scale;
  }

  // ----- shape of a fare -----

  predicate SaneConfig(cfg: FareConfig) {
    && cfg.ratePerKm >= 0.0 && cfg.feePercent >= 0.0
    && cfg.minFee >= 0.0 && WholeCents(cfg.minFee)
  }

  /** Only a positive amount refuses a discount: a negative one as invalid, one above the amount as exceeding it. */
  predicate RefusedAgainst(amount: real, discount: Option<real>, r: FareResult) {
    && (r.InvalidDiscount? <==> amount > 0.0 && discount.Some? && discount.value < 0.0)
    && (r.DiscountExceedsFare? <==> amount > 0.0 && discount.Some? && discount.value > amount)
  }

  /** Refusals, in terms of the distance rounded to metres and the rate. */
  lemma RefusedExactlyForBadDiscounts(cfg: FareConfig, km: real, discount: Option<real>)
    ensures RefusedAgainst(ToFixed(km, 1000.0) * cfg.ratePerKm, discount, CalculateFare(cfg, km, discount))
    ensures CalculateFare(cfg, km, discount).Calculated? <==> DiscountAccepted(BaseFare(cfg, km), discount)
  {
    RefusedOnBase(cfg, km, discount);
    PositivePartRefuses(cfg, km, discount, CalculateFare(cfg, km, discount));
  }

  lemma RefusedOnBase(cfg: FareConfig, km: real, discount: Option<real>)
    ensures RefusedAgainst(BaseFare(cfg, km), discount, CalculateFare(cfg, km, discount))
    ensures CalculateFare(cfg, km, discount).Calculated? <==> DiscountAccepted(BaseFare(cfg, km), discount)
  {
  }

  lemma PositivePartRefuses(cfg: FareConfig, km: real, discount: Option<real>, r: FareResult)
    requires RefusedAgainst(BaseFare(cfg, km), discount, r)
    ensures RefusedAgainst(ToFixed(km, 1000.0) * cfg.ratePerKm, discount, r)
  {
  }

  lemma ResolvedDiscountFits(baseFare: real, discount: Option<real>)
    requires DiscountAccepted(baseFare, discount)
    ensures WholeCents(ResolvedDiscount(baseFare, discount)) && ResolvedDiscount(baseFare, discount) >= 0.0
    ensures baseFare >= 0.0 ==> ResolvedDiscount(baseFare, discount) <= baseFare + 0.005
  {
    if discount.Some? {
      MoneyIsNear(discount.value);
    }
  }

  lemma DiscountedFareFits(baseFare: real, discount: real)
    requires baseFare >= 0.0 && discount <= baseFare + 0.005
    ensures WholeCents(Money(baseFare - discount)) && Money(baseFare - discount) >= 0.0
    ensures Within(discount + Money(baseFare - discount), baseFare, 0.005)
  {
    MoneyIsNear(baseFare - discount);
  }

  /** The total is the discounted fare plus the fee to the cent, and discount plus discounted fare misses the base
      fare by at most half a cent. */
  lemma TotalIsExact(cfg: FareConfig, km: real, discount: Option<real>)
    requires SaneConfig(cfg) && CalculateFare(cfg, km, discount).Calculated?
    ensures var f := CalculateFare(cfg, km, discount).fare;
            && f.finalFare == f.fareAfterDiscount + f.appFeeAmount
            && WholeCents(f.finalFare) && WholeCents(f.appFeeAmount) && WholeCents(f.discountAmount)
            && Within(f.discountAmount + f.fareAfterDiscount, f.baseFare, 0.005)
  {
    var f := CalculateFare(cfg, km, discount).fare;
    ResolvedDiscountFits(f.baseFare, discount);
    DiscountedFareFits(f.baseFare, f.discountAmount);
    FeeIsWholeCents(cfg, f.fareAfterDiscount);
    WholeCentsAdd(f.fareAfterDiscount, f.appFeeAmount);
    MoneyKeepsWholeCents(f.fareAfterDiscount + f.appFeeAmount);
  }

  lemma FeeIsWholeCents(cfg: FareConfig, after: real)
    requires SaneConfig(cfg)
    ensures WholeCents(AppFee(cfg, after)) && AppFee(cfg, after) >= 0.0
  {
    MoneyIsNear(PercentOf(after, cfg.feePercent));
  }

  /** The stored percentage lies between 0 and 100, has two digits, and for a discount within the base fare misses the
      true ratio by at most half a hundredth. */
  lemma PercentIsTheRoundedRatio(baseFare: real, discount: real)
    ensures 0.0 <= DiscountPercent(baseFare, discount) <= 100.0 && WholeCents(DiscountPercent(baseFare, discount))
    ensures baseFare > 0.0 && 0.0 <= discount <= baseFare ==>
              Within(DiscountPercent(baseFare, discount), discount / baseFare * 100.0, 0.005)
  {
    if baseFare > 0.0 && discount > 0.0 {
      var ratio := discount / baseFare * 100.0;
      var bounded := if ratio > 100.0 then 100.0 else Max(ratio, 0.0);
      MathRoundIsNear(bounded * 100.0);
      HundredthsAreNear(bounded);
      if discount <= baseFare {
        RatioIsBounded(discount, baseFare);
      }
    }
  }

  lemma RatioIsBounded(part: real, whole: real)
    requires 0.0 <= part <= whole && whole > 0.0
    ensures 0.0 <= part / whole * 100.0 <= 100.0
  {
    Quotients(0.0, part, whole);
    Quotients(part, whole, whole);
  }

  lemma HundredthsAreNear(x: real)
    requires 0.0 <= x <= 100.0
    ensures var r := MathRound(x * 100.0) as real / 100.0; 0.0 <= r <= 100.0 && WholeCents(r) && Within(r, x, 0.005)
  {
    MathRoundIsNear(x * 100.0);
    var m := MathRound(x * 100.0);
    assert 0 <= m <= 10000;
    assert m as real / 100.0 * 100.0 == m as real;
  }

  /** The fare is charged the percentage fee, not the minimum. */
  predicate PaysPercentage(cfg: FareConfig, f: Fare) {
    f.fareAfterDiscount > 0.0 && f.fareAfterDiscount >= cfg.minFeeThreshold
  }

  /** The fee formula without rounding, on the branch that the rounded fare takes. */
  function UnroundedTotal(cfg: FareConfig, fareAfterDiscount: real, net: real): real {
    if fareAfterDiscount <= 0.0 || fareAfterDiscount < cfg.minFeeThreshold then net + cfg.minFee
    else net * (1.0 + cfg.feePercent / 100.0)
  }

  /** The discount that counts: none without one or without a positive base fare. */
  function EffectiveDiscount(baseFare: real, discount: Option<real>): real {
    if baseFare > 0.0 && discount.Some? then discount.value else 0.0
  }

  /** For every accepted calculation, rounding discount, fare and fee one after the other moves the total by at most
      0.01 (1 + p / 100) + 0.005. */
  lemma TotalIsNearUnrounded(cfg: FareConfig, km: real, discount: Option<real>)
    requires SaneConfig(cfg) && CalculateFare(cfg, km, discount).Calculated?
    ensures var f := CalculateFare(cfg, km, discount).fare;
            var exact := UnroundedTotal(cfg, f.fareAfterDiscount, f.baseFare - EffectiveDiscount(f.baseFare, discount));
            Within(f.finalFare, exact, 0.01 * (1.0 + cfg.feePercent / 100.0) + 0.005)
  {
    var f := CalculateFare(cfg, km, discount).fare;
    DiscountedFareIsNear(cfg, km, discount);
    TotalIsExact(cfg, km, discount);
    RoundedFeeIsNear(cfg, f.fareAfterDiscount, f.baseFare - EffectiveDiscount(f.baseFare, discount));
  }

  /** The discounted fare is within a cent of the base fare minus the discount that was given. */
  lemma DiscountedFareIsNear(cfg: FareConfig, km: real, discount: Option<real>)
    requires SaneConfig(cfg) && CalculateFare(cfg, km, discount).Calculated?
    ensures var f := CalculateFare(cfg, km, discount).fare;
            && f.fareAfterDiscount >= 0.0
            && Within(f.fareAfterDiscount, f.baseFare - EffectiveDiscount(f.baseFare, discount), 0.01)
  {
    var f := CalculateFare(cfg, km, discount).fare;
    MoneyIsNear(EffectiveDiscount(f.baseFare, discount));
    MoneyIsNear(f.baseFare - f.discountAmount);
  }

  lemma RoundToIsNear(x: real, scale: real)
    requires x >= 0.0 && scale > 0.0
    ensures RoundTo(x, scale) >= 0.0 && (RoundTo(x, scale) * scale).Floor as real == RoundTo(x, scale) * scale
    ensures Within(RoundTo(x, scale) * scale, x * scale, 0.5)
  {
    OrderedProducts(0.0, x, scale);
    OrderedRoundings(0.0 * scale, x * scale);
    RoundToIsMonotone(0.0, x, scale);
    MathRoundIsNear(x * scale);
    assert RoundTo(x, scale) * scale == MathRound(x * scale) as real;
  }

  /** Distances are rounded to metres. */
  lemma DistanceIsRounded(km: real)
    ensures Within(ToFixed(km, 1000.0), km, 0.0005)
    ensures WholeMetres(ToFixed(km, 1000.0))
    ensures km >= 0.0 ==> ToFixed(km, 1000.0) >= 0.0
    ensures km <= 0.0 ==> ToFixed(km, 1000.0) <= 0.0
  {
    RoundToIsNear(if km < 0.0 then -km else km, 1000.0);
    if km < 0.0 {
      var m := RoundTo(-km, 1000.0) * 1000.0;
      assert m.Floor as real == m;
      assert (-m).Floor == -(m.Floor);
    }
  }

  /** `rounded` is the distance to the metre, and `base` that distance times the rate; a negative distance costs
      nothing. */
  predicate MetresTimesRate(km: real, rate: real, rounded: real, base: real) {
    && Within(rounded, km, 0.0005)
    && WholeMetres(rounded)
    && (km >= 0.0 ==> rounded >= 0.0 && base == rounded * rate)
    && (km < 0.0 ==> base == 0.0)
  }

  lemma BaseFareIsDistanceTimesRate(cfg: FareConfig, km: real, discount: Option<real>)
    requires SaneConfig(cfg) && CalculateFare(cfg, km, discount).Calculated?
    ensures var f := CalculateFare(cfg, km, discount).fare;
            MetresTimesRate(km, cfg.ratePerKm, f.roundedDistanceKm, f.baseFare)
  {
    BaseOfFare(cfg, km, discount);
    var f := CalculateFare(cfg, km, discount).fare;
    ChargedMetres(cfg, km, f.roundedDistanceKm, f.baseFare);
  }

  lemma BaseOfFare(cfg: FareConfig, km: real, discount: Option<real>)
    requires CalculateFare(cfg, km, discount).Calculated?
    ensures var f := CalculateFare(cfg, km, discount).fare;
            f.roundedDistanceKm == ToFixed(km, 1000.0) && f.baseFare == BaseFare(cfg, km)
  {
  }

  lemma ChargedMetres(cfg: FareConfig, km: real, rounded: real, base: real)
    requires cfg.ratePerKm >= 0.0 && rounded == ToFixed(km, 1000.0) && base == BaseFare(cfg, km)
    ensures MetresTimesRate(km, cfg.ratePerKm, rounded, base)
  {
    DistanceIsRounded(km);
    PositivePart(ToFixed(km, 1000.0), cfg.ratePerKm);
  }

  lemma PositivePart(x: real, y: real)
    requires y >= 0.0
    ensures x >= 0.0 ==> Max(0.0, x * y) == x * y
    ensures x <= 0.0 ==> Max(0.0, x * y) == 0.0
  {
    SignOfProduct(x, y);
  }

  lemma SignOfProduct(x: real, y: real)
    requires y >= 0.0
    ensures x >= 0.0 ==> x * y >= 0.0
    ensures x <= 0.0 ==> x * y <= 0.0
  {
  }

  lemma NotNegative(x: real, y: real)
    requires x >= 0.0 && y >= 0.0
    ensures x * y >= 0.0
  {
  }

  lemma BaseFareIsNear(cfg: FareConfig, km: real, discount: Option<real>)
    requires SaneConfig(cfg) && km >= 0.0 && CalculateFare(cfg, km, discount).Calculated?
    ensures Within(CalculateFare(cfg, km, discount).fare.baseFare, km * cfg.ratePerKm, 0.0005 * cfg.ratePerKm)
  {
    BaseFareIsDistanceTimesRate(cfg, km, discount);
    ScaledWithin(CalculateFare(cfg, km, discount).fare.roundedDistanceKm, km, cfg.ratePerKm, 0.0005);
  }

  lemma ScaledWithin(x: real, y: real, rate: real, eps: real)
    requires Within(x, y, eps) && rate >= 0.0 && eps >= 0.0
    ensures Within(x * rate, y * rate, eps * rate)
  {
    NotNegative(eps - (x - y), rate);
    NotNegative(eps + (x - y), rate);
    assert (eps - (x - y)) * rate == eps * rate - x * rate + y * rate;
    assert (eps + (x - y)) * rate == eps * rate + x * rate - y * rate;
  }

  /** A total computed from a net fare without rounding, with fee rate `p` or a flat `fee`, is met up to the errors of
      rounding, where the net fare itself may be off by `eps`. */
  predicate MeetsFormula(total: real, net: real, percentage: bool, p: real, fee: real, eps: real) {
    Within(total, if percentage then net * (1.0 + p) else net + fee, (0.01 + eps) * (1.0 + p) + 0.005)
  }

  /** The calculation against the plain formula: distance times rate, minus the discount that counts, plus the fee of the
      branch taken. Rounding the distance to metres and every amount to cents moves the total by at most
      (0.01 + 0.0005 rate)(1 + p / 100) + 0.005. */
  lemma TotalIsNearDistanceTimesRate(cfg: FareConfig, km: real, discount: Option<real>)
    requires SaneConfig(cfg) && km >= 0.0 && CalculateFare(cfg, km, discount).Calculated?
    ensures var f := CalculateFare(cfg, km, discount).fare;
            var given := if f.baseFare > 0.0 && discount.Some? then discount.value else 0.0;
            var percentage := f.fareAfterDiscount > 0.0 && f.fareAfterDiscount >= cfg.minFeeThreshold;
            MeetsFormula(f.finalFare, km * cfg.ratePerKm - given, percentage, cfg.feePercent / 100.0, cfg.minFee,
                         0.0005 * cfg.ratePerKm)
  {
    TotalIsNearUnrounded(cfg, km, discount);
    BaseFareIsNear(cfg, km, discount);
    var f := CalculateFare(cfg, km, discount).fare;
    FromBaseToDistance(cfg, f, km * cfg.ratePerKm, EffectiveDiscount(f.baseFare, discount));
  }

  lemma FromBaseToDistance(cfg: FareConfig, f: Fare, exact: real, given: real)
    requires SaneConfig(cfg) && Within(f.baseFare, exact, 0.0005 * cfg.ratePerKm)
    requires Within(f.finalFare, UnroundedTotal(cfg, f.fareAfterDiscount, f.baseFare - given),
                    0.01 * (1.0 + cfg.feePercent / 100.0) + 0.005)
    ensures MeetsFormula(f.finalFare, exact - given, PaysPercentage(cfg, f), cfg.feePercent / 100.0, cfg.minFee,
                         0.0005 * cfg.ratePerKm)
  {
    var eps := 0.0005 * cfg.ratePerKm;
    var p := cfg.feePercent / 100.0;
    assert p >= 0.0;
    NotNegative(0.0005, cfg.ratePerKm);
    ShiftedNet(f.finalFare, f.baseFare - given, exact - given, p, eps, cfg.minFee, PaysPercentage(cfg, f));
  }

  /** An error `eps` in the net fare adds (1 + p) times as much to the error of the total. */
  lemma ShiftedNet(total: real, near: real, net: real, p: real, eps: real, fee: real, percentage: bool)
    requires p >= 0.0 && eps >= 0.0 && Within(near, net, eps)
    requires Within(total, if percentage then near * (1.0 + p) else near + fee, 0.01 * (1.0 + p) + 0.005)
    ensures MeetsFormula(total, net, percentage, p, fee, eps)
  {
    var q := 1.0 + p;
    SumTimes(0.01, eps, q);
    if percentage {
      ScaledWithin(near, net, q, eps);
      Widened(total, near * q, net * q, 0.01 * q + 0.005, eps * q);
    } else {
      NotNegative(eps, p);
      Distribute(eps, p);
      Widened(total, near + fee, net + fee, 0.01 * q + 0.005, eps * q);
    }
  }

  lemma SumTimes(x: real, y: real, q: real)
    ensures (x + y) * q == x * q + y * q
  {
  }

  lemma Widened(x: real, y: real, z: real, e1: real, e2: real)
    requires Within(x, y, e1) && Within(y, z, e2)
    ensures Within(x, z, e1 + e2)
  {
  }

  /** The discount that is stored is the given one, rounded to cents; none counts on a fare that is not positive. */
  lemma StoredDiscountIsNear(cfg: FareConfig, km: real, discount: Option<real>)
    requires CalculateFare(cfg, km, discount).Calculated?
    ensures var f := CalculateFare(cfg, km, discount).fare;
            var given := if f.baseFare > 0.0 && discount.Some? then discount.value else 0.0;
            WholeCents(f.discountAmount) && Within(f.discountAmount, given, 0.005)
  {
    var f := CalculateFare(cfg, km, discount).fare;
    MoneyIsNear(EffectiveDiscount(f.baseFare, discount));
  }

  /** The stored percentage is that of the stored discount in the base fare, to two digits and at most 100. */
  lemma StoredPercentIsNear(cfg: FareConfig, km: real, discount: Option<real>)
    requires CalculateFare(cfg, km, discount).Calculated?
    ensures var f := CalculateFare(cfg, km, discount).fare;
            && WholeCents(f.discountPercent)
            && (f.baseFare <= 0.0 ==> f.discountPercent == 0.0)
            && (f.baseFare > 0.0 && f.discountAmount > f.baseFare ==> f.discountPercent == 100.0)
            && (0.0 < f.baseFare && f.discountAmount <= f.baseFare ==>
                  Within(f.discountPercent, f.discountAmount / f.baseFare * 100.0, 0.005))
  {
    var f := CalculateFare(cfg, km, discount).fare;
    ResolvedDiscountFits(f.baseFare, discount);
    PercentIsTheRoundedRatio(f.baseFare, f.discountAmount);
    if f.baseFare > 0.0 && f.discountAmount > f.baseFare {
      FullPercent(f.baseFare, f.discountAmount);
    }
  }

  lemma FullPercent(baseFare: real, discount: real)
    requires discount > baseFare > 0.0
    ensures DiscountPercent(baseFare, discount) == 100.0
  {
    Quotients(baseFare, discount, baseFare);
    assert MathRound(100.0 * 100.0) == 10000;
  }

  /** The minimum fee below the threshold, the rounded percentage of the discounted fare from it on; a fare of nothing
      pays the minimum fee. */
  predicate FeeCharged(cfg: FareConfig, after: real, fee: real) {
    if after > 0.0 && after >= cfg.minFeeThreshold then Within(fee, after * (cfg.feePercent / 100.0), 0.005)
    else fee == cfg.minFee
  }

  lemma StoredFeeIsNear(cfg: FareConfig, km: real, discount: Option<real>)
    requires SaneConfig(cfg) && CalculateFare(cfg, km, discount).Calculated?
    ensures var f := CalculateFare(cfg, km, discount).fare;
            FeeCharged(cfg, f.fareAfterDiscount, f.appFeeAmount)
  {
    var f := CalculateFare(cfg, km, discount).fare;
    FeeIsNear(cfg, f.fareAfterDiscount, f.appFeeAmount);
  }

  lemma FeeIsNear(cfg: FareConfig, after: real, fee: real)
    requires SaneConfig(cfg) && fee == AppFee(cfg, after)
    ensures FeeCharged(cfg, after, fee)
  {
    if after > 0.0 && after >= cfg.minFeeThreshold {
      FractionOfPercent(after, cfg.feePercent);
      MoneyIsNear(PercentOf(after, cfg.feePercent));
    }
  }

  lemma RoundedFeeIsNear(cfg: FareConfig, after: real, net: real)
    requires SaneConfig(cfg) && Within(after, net, 0.01) && after >= 0.0
    ensures Within(after + AppFee(cfg, after), UnroundedTotal(cfg, after, net),
                   0.01 * (1.0 + cfg.feePercent / 100.0) + 0.005)
  {
    var p := cfg.feePercent / 100.0;
    if after > 0.0 && after >= cfg.minFeeThreshold {
      FractionOfPercent(after, cfg.feePercent);
      MoneyIsNear(PercentOf(after, cfg.feePercent));
      ErrorOfFee(after, net, p, AppFee(cfg, after));
    } else {
      assert p >= 0.0;
    }
  }

  lemma FractionOfPercent(x: real, percent: real)
    requires x >= 0.0 && percent >= 0.0
    ensures PercentOf(x, percent) == x * (percent / 100.0) >= 0.0
  {
  }

  lemma ErrorOfFee(after: real, net: real, p: real, fee: real)
    requires Within(after, net, 0.01) && p >= 0.0 && Within(fee, after * p, 0.005)
    ensures Within(after + fee, net * (1.0 + p), 0.01 * (1.0 + p) + 0.005)
  {
    ScaledError(after, net, p);
    Distribute(net, p);
    Distribute(0.01, p);
    SumOfErrors(after, net, after * p, net * p, fee, 0.01 * p);
  }

  lemma ScaledError(x: real, y: real, p: real)
    requires Within(x, y, 0.01) && p >= 0.0
    ensures Within(x * p, y * p, 0.01 * p)
  {
    var e := x - y;
    assert -0.01 * p <= e * p <= 0.01 * p;
    assert x * p == y * p + e * p;
  }

  lemma Distribute(x: real, p: real)
    ensures x * (1.0 + p) == x + x * p
  {
  }

  lemma SumOfErrors(x: real, y: real, xp: real, yp: real, fee: real, eps: real)
    requires Within(x, y, 0.01) && Within(xp, yp, eps) && Within(fee, xp, 0.005)
    ensures Within(x + fee, y + yp, 0.01 + eps + 0.005)
  {
  }

  lemma BaseFareIsMonotone(cfg: FareConfig, km1: real, km2: real)
    requires SaneConfig(cfg) && km1 <= km2
    ensures BaseFare(cfg, km1) <= BaseFare(cfg, km2)
  {
    ToFixedIsMonotone(km1, km2, 1000.0);
    assert ToFixed(km1, 1000.0) * cfg.ratePerKm <= ToFixed(km2, 1000.0) * cfg.ratePerKm;
  }

  /** A discount accepted on a positive base fare is accepted on every longer trip. */
  lemma AcceptedOnLongerTrips(cfg: FareConfig, km1: real, km2: real, discount: Option<real>)
    requires SaneConfig(cfg) && km1 <= km2 && BaseFare(cfg, km1) > 0.0
    requires CalculateFare(cfg, km1, discount).Calculated?
    ensures CalculateFare(cfg, km2, discount).Calculated?
  {
    BaseFareIsMonotone(cfg, km1, km2);
  }

  /** The distances at which a given discount is refused have no gaps: refused for a shorter and for a longer trip, it is
      refused for every trip in between. */
  lemma RefusalsHaveNoGaps(cfg: FareConfig, km1: real, km2: real, km3: real, discount: Option<real>)
    requires SaneConfig(cfg) && km1 <= km2 <= km3
    requires !CalculateFare(cfg, km1, discount).Calculated? && !CalculateFare(cfg, km3, discount).Calculated?
    ensures !CalculateFare(cfg, km2, discount).Calculated?
  {
    RefusedExactlyForBadDiscounts(cfg, km1, discount);
    RefusedExactlyForBadDiscounts(cfg, km3, discount);
    BaseFareIsMonotone(cfg, km1, km2);
    BaseFareIsMonotone(cfg, km2, km3);
  }

  lemma DiscountedFareIsMonotone(cfg: FareConfig, km1: real, km2: real, discount: Option<real>)
    requires SaneConfig(cfg) && km1 <= km2
    requires CalculateFare(cfg, km1, discount).Calculated? && CalculateFare(cfg, km2, discount).Calculated?
    ensures 0.0 <= CalculateFare(cfg, km1, discount).fare.fareAfterDiscount
                <= CalculateFare(cfg, km2, discount).fare.fareAfterDiscount
  {
    BaseFareIsMonotone(cfg, km1, km2);
    var f, g := CalculateFare(cfg, km1, discount).fare, CalculateFare(cfg, km2, discount).fare;
    MoneyIsNear(f.baseFare - f.discountAmount);
    MoneyIsNear(g.baseFare - g.discountAmount);
    if f.baseFare > 0.0 {
      assert f.discountAmount == g.discountAmount;
      MoneyIsMonotone(f.baseFare - f.discountAmount, g.baseFare - g.discountAmount);
    } else {
      assert f.fareAfterDiscount == 0.0;
    }
  }

  lemma FeeIsMonotone(cfg: FareConfig, x: real, y: real)
    requires SaneConfig(cfg) && x <= y
    ensures PercentageFee(cfg, x) <= PercentageFee(cfg, y)
  {
    Scaled(x, y, cfg.feePercent);
    MoneyIsMonotone(PercentOf(x, cfg.feePercent), PercentOf(y, cfg.feePercent));
  }

  /** The total as a function of the discounted fare grows on either side of the threshold. */
  lemma TotalGrowsOnOneSide(cfg: FareConfig, x: real, y: real)
    requires SaneConfig(cfg) && 0.0 <= x <= y
    requires y > 0.0 && y >= cfg.minFeeThreshold ==> x > 0.0 && x >= cfg.minFeeThreshold
    ensures x + AppFee(cfg, x) <= y + AppFee(cfg, y)
  {
    FeeIsMonotone(cfg, x, y);
  }

  lemma TotalDropsAtThreshold(cfg: FareConfig, x: real, y: real)
    requires SaneConfig(cfg) && 0.0 <= x <= y
    requires x == 0.0 || x < cfg.minFeeThreshold
    requires y > 0.0 && y >= cfg.minFeeThreshold
    ensures (x + AppFee(cfg, x)) - (y + AppFee(cfg, y))
            < cfg.minFee - PercentageFee(cfg, cfg.minFeeThreshold)
  {
    FeeIsMonotone(cfg, cfg.minFeeThreshold, y);
    var atThreshold := PercentageFee(cfg, cfg.minFeeThreshold);
    var low, high := AppFee(cfg, x), AppFee(cfg, y);
    assert low == cfg.minFee && high >= atThreshold;
  }

  /** For a discount accepted on both trips the total does not fall with distance on either side of the fee
      threshold; where the longer trip crosses the threshold it falls by less than the minimum fee minus the rounded
      percentage fee at the threshold. */
  lemma TotalGrowsWithDistance(cfg: FareConfig, km1: real, km2: real, discount: Option<real>)
    requires SaneConfig(cfg) && km1 <= km2
    requires CalculateFare(cfg, km1, discount).Calculated? && CalculateFare(cfg, km2, discount).Calculated?
    ensures var f, g := CalculateFare(cfg, km1, discount).fare, CalculateFare(cfg, km2, discount).fare;
            && (PaysPercentage(cfg, f) ==> PaysPercentage(cfg, g))
            && (PaysPercentage(cfg, f) == PaysPercentage(cfg, g) ==> f.finalFare <= g.finalFare)
            && (!PaysPercentage(cfg, f) && PaysPercentage(cfg, g) ==>
                  f.finalFare - g.finalFare < cfg.minFee - PercentageFee(cfg, cfg.minFeeThreshold))
  {
    DiscountedFareIsMonotone(cfg, km1, km2, discount);
    TotalIsExact(cfg, km1, discount);
    TotalIsExact(cfg, km2, discount);
    var f, g := CalculateFare(cfg, km1, discount).fare, CalculateFare(cfg, km2, discount).fare;
    if PaysPercentage(cfg, f) == PaysPercentage(cfg, g) {
      TotalGrowsOnOneSide(cfg, f.fareAfterDiscount, g.fareAfterDiscount);
    } else {
      TotalDropsAtThreshold(cfg, f.fareAfterDiscount, g.fareAfterDiscount);
    }
  }

  lemma Scaled(x: real, y: real, p: real)
    requires x <= y && p >= 0.0
    ensures PercentOf(x, p) <= PercentOf(y, p)
  {
    assert x * p <= y * p;
  }

  // ----- amounts written to and read from the money columns -----

  /** Writing an amount with two decimals and reading it back with `roundCurrency` gives the amount rounded to cents
      once; on whole cents nothing is lost. */
  lemma CentsSurviveTheColumn(x: real)
    requires x >= 0.0
    ensures Money(ToFixed(x, 100.0)) == ToFixed(x, 100.0)
    ensures WholeCents(x) ==> ToFixed(x, 100.0) == x
  {
    var n := MathRound(x * 100.0);
    assert ToFixed(x, 100.0) == n as real / 100.0;
    assert (n as real / 100.0) * 100.0 == n as real;
    MoneyKeepsWholeCents(n as real / 100.0);
    if WholeCents(x) {
      assert ((x * 100.0).Floor as real + 0.5).Floor == (x * 100.0).Floor;
    }
  }
}
