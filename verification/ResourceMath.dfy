/**
 * Resource arithmetic over unbounded integers. Numerators are never negative, so the
 * source's truncating division and Dafny's agree.
 */
module ResourceMath {
  import opened Options

  datatype ResourceType = Energy | Bandwidth

  /** The account and network counters the node reports; an absent counter reads as zero. */
  datatype AccountResource = AccountResource(
    energyLimit: int, energyUsed: int, netLimit: int, netUsed: int, freeNetLimit: int, freeNetUsed: int,
    totalEnergyLimit: int, totalEnergyWeight: int, totalNetLimit: int, totalNetWeight: int)

  const SUN_PER_TRX: nat := 1_000_000

  function DivideRoundUp(numerator: nat, denominator: nat): (q: nat)
    requires denominator > 0
    ensures forall k: nat :: k * denominator >= numerator <==> k >= q
  {
    var q := (numerator + denominator - 1) / denominator;
    RoundUpIsLeast(numerator, denominator, q);
    q
  }

  lemma RoundUpIsLeast(n: nat, d: nat, q: nat)
    requires d > 0 && q == (n + d - 1) / d
    ensures forall k: nat :: k * d >= n <==> k >= q
  {
    var r := (n + d - 1) % d;
    assert n + d - 1 == q * d + r;
    forall k: nat
      ensures k * d >= n <==> k >= q
    {
      if k >= q {
        assert k * d == q * d + (k - q) * d && (k - q) * d >= 0;
      } else {
        assert (q - k) * d >= d by { assert (q - k) * d == d + (q - k - 1) * d && (q - k - 1) * d >= 0; }
        assert k * d == q * d - (q - k) * d;
      }
    }
  }

  function NonNegative(value: int): nat {
    if value > 0 then value else 0
  }

  function ApplySafetyBasisPoints(value: nat, basisPoints: nat): nat {
    DivideRoundUp(value * basisPoints, 10_000)
  }

  /** The safe requirement is the least amount not below the estimate scaled by the safety factor. */
  lemma SafeIsLeast(value: nat, basisPoints: nat)
    ensures forall k: nat :: k * 10_000 >= value * basisPoints <==> k >= ApplySafetyBasisPoints(value, basisPoints)
  {
  }

  function Staked(r: AccountResource): nat {
    NonNegative(r.netLimit - r.netUsed)
  }

  function Free(r: AccountResource): nat {
    NonNegative(r.freeNetLimit - r.freeNetUsed)
  }

  function AvailableResource(r: AccountResource, kind: ResourceType): nat {
    match kind
    case Energy => NonNegative(r.energyLimit - r.energyUsed)
    case Bandwidth => if Staked(r) > Free(r) then Staked(r) else Free(r)
  }

  /**
   * An amount is available exactly when it fits under a limit together with what is used already; for
   * bandwidth, under one of the two limits, which are not added up.
   */
  lemma AvailableIsWhatFits(r: AccountResource, n: nat)
    requires n > 0
    ensures n <= AvailableResource(r, Energy) <==> r.energyUsed + n <= r.energyLimit
    ensures n <= AvailableResource(r, Bandwidth) <==>
      r.netUsed + n <= r.netLimit || r.freeNetUsed + n <= r.freeNetLimit
  {
  }

  datatype PaymentSource = StakedBucket | FreeBucket | BurnTrx

  datatype PaymentPlan = PaymentPlan(source: PaymentSource, burnSun: nat)

  /** None stands for the range errors on a non-positive size or price. */
  function PlanOwnerBandwidthPayment(requiredBytes: int, r: AccountResource, unitPriceSun: int): Option<PaymentPlan> {
    if requiredBytes <= 0 || unitPriceSun <= 0 then None else
    var source :=
      if Staked(r) >= requiredBytes then StakedBucket
      else if Free(r) >= requiredBytes then FreeBucket
      else BurnTrx;
    Positive(requiredBytes, unitPriceSun);
    Some(PaymentPlan(source, if source.StakedBucket? then 0 else requiredBytes * unitPriceSun))
  }

  lemma Positive(a: int, b: int)
    requires a > 0 && b > 0
    ensures a * b > 0
  {
  }

  /** What the chain takes: one bucket pays for everything, and free bandwidth also needs the public pool. */
  function ChainCharge(requiredBytes: nat, r: AccountResource, unitPriceSun: nat, publicPool: bool): nat {
    if Staked(r) >= requiredBytes then 0
    else if Free(r) >= requiredBytes && publicPool then 0
    else requiredBytes * unitPriceSun
  }

  /** The planned charge is the worst case over the pool state the node does not report, and no more. */
  lemma PlanIsWorstCase(requiredBytes: nat, r: AccountResource, unitPriceSun: nat)
    requires requiredBytes > 0 && unitPriceSun > 0
    ensures var plan := PlanOwnerBandwidthPayment(requiredBytes, r, unitPriceSun);
      && plan.Some?
      && (forall pool :: ChainCharge(requiredBytes, r, unitPriceSun, pool) <= plan.value.burnSun)
      && (exists pool :: ChainCharge(requiredBytes, r, unitPriceSun, pool) == plan.value.burnSun)
      && (plan.value.burnSun == 0 <==> AvailableResource(r, Bandwidth) >= requiredBytes && Staked(r) >= requiredBytes)
  {
    Positive(requiredBytes, unitPriceSun);
    assert ChainCharge(requiredBytes, r, unitPriceSun, false) ==
      PlanOwnerBandwidthPayment(requiredBytes, r, unitPriceSun).value.burnSun;
  }

  function TotalLimit(r: AccountResource, kind: ResourceType): int {
    if kind.Energy? then r.totalEnergyLimit else r.totalNetLimit
  }

  function TotalWeight(r: AccountResource, kind: ResourceType): int {
    if kind.Energy? then r.totalEnergyWeight else r.totalNetWeight
  }

  /** None stands for the error on unusable network totals. */
  function ResourceUnitsToStakeSun(units: int, r: AccountResource, kind: ResourceType, minimumSun: nat): Option<nat> {
    if units <= 0 then Some(0)
    else
      var limit, weight := TotalLimit(r, kind), TotalWeight(r, kind);
      if limit <= 0 || weight <= 0 then None
      else
        StakeNumerator(units, weight);
        var calculated := DivideRoundUp(units * weight * SUN_PER_TRX, limit);
        Some(if calculated < minimumSun then minimumSun else calculated)
  }

  lemma StakeNumerator(units: int, weight: int)
    requires units >= 0 && weight > 0
    ensures units * weight * SUN_PER_TRX >= 0
  {
    assert units * weight >= 0;
  }

  /** The units that delegating a stake gives the receiver. */
  function DelegatedUnits(stakeSun: nat, limit: nat, weight: nat): nat
    requires weight > 0
  {
    stakeSun * limit / (weight * SUN_PER_TRX)
  }

  lemma QuotientAtLeast(n: nat, d: nat, u: nat)
    requires d > 0
    ensures n / d >= u <==> n >= u * d
  {
    var q := n / d;
    assert n == q * d + n % d;
    if q >= u {
      assert q * d == u * d + (q - u) * d && (q - u) * d >= 0;
    } else {
      assert u * d == q * d + d + (u - q - 1) * d && (u - q - 1) * d >= 0;
    }
  }

  lemma DelegatesEnough(stakeSun: nat, limit: nat, weight: nat, units: nat)
    requires weight > 0
    ensures DelegatedUnits(stakeSun, limit, weight) >= units <==> stakeSun * limit >= units * weight * SUN_PER_TRX
  {
    var n, d := stakeSun * limit, weight * SUN_PER_TRX;
    QuotientAtLeast(n, d, units);
    assert units * weight * SUN_PER_TRX == units * d;
  }

  /** The stake is the least one at or above the minimum whose delegation covers the deficit. */
  lemma StakeIsLeast(units: nat, r: AccountResource, kind: ResourceType, minimumSun: nat, other: nat)
    requires units > 0 && TotalLimit(r, kind) > 0 && TotalWeight(r, kind) > 0
    ensures var stake := ResourceUnitsToStakeSun(units, r, kind, minimumSun);
      && stake.Some?
      && (other >= stake.value <==>
          other >= minimumSun && DelegatedUnits(other, TotalLimit(r, kind), TotalWeight(r, kind)) >= units)
  {
    var limit, weight := TotalLimit(r, kind), TotalWeight(r, kind);
    StakeNumerator(units, weight);
    DelegatesEnough(other, limit, weight, units);
    var q := DivideRoundUp(units * weight * SUN_PER_TRX, limit);
    assert other * limit >= units * weight * SUN_PER_TRX <==> other >= q;
  }

  datatype Requirement = Requirement(estimated: nat, required: nat, available: nat, deficit: nat, balanceSun: nat)

  /** None when the node's totals are unusable; a provider-sourced energy deficit is not staked for. */
  function MakeRequirement(kind: ResourceType, estimated: nat, required: nat, r: AccountResource, fromProvider: bool,
      minimumSun: nat): Option<Requirement> {
    var available := AvailableResource(r, kind);
    var deficit: nat := if required > available then required - available else 0;
    if kind.Energy? && fromProvider then Some(Requirement(estimated, required, available, deficit, 0))
    else
      match ResourceUnitsToStakeSun(deficit, r, kind, minimumSun)
      case None => None
      case Some(sun) => Some(Requirement(estimated, required, available, deficit, sun))
  }

  /**
   * What is available together with what the stake delegates reaches the safe requirement,
   * which is itself the least amount not below the estimate scaled by the safety factor.
   */
  lemma DelegationReachesSafeEstimate(kind: ResourceType, estimated: nat, bps: nat, r: AccountResource, minimumSun: nat)
    requires TotalLimit(r, kind) > 0 && TotalWeight(r, kind) > 0
    ensures var safe := ApplySafetyBasisPoints(estimated, bps);
      && (forall k: nat :: k * 10_000 >= estimated * bps <==> k >= safe)
      && var made := MakeRequirement(kind, estimated, safe, r, false, minimumSun);
      && made.Some?
      && made.value.available + DelegatedUnits(made.value.balanceSun, TotalLimit(r, kind), TotalWeight(r, kind)) >= safe
      && (made.value.available >= safe <==> made.value.deficit == 0)
      && (made.value.deficit == 0 ==> made.value.balanceSun == 0)
  {
    var safe := ApplySafetyBasisPoints(estimated, bps);
    var available := AvailableResource(r, kind);
    if safe > available {
      var stake := ResourceUnitsToStakeSun(safe - available, r, kind, minimumSun);
      StakeIsLeast(safe - available, r, kind, minimumSun, stake.value);
    }
  }
}
