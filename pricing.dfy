/**
 * The M2M price list and the seven two-tier cost formulas of `handler`: a
 * committed quantity at the committed rate plus what exceeds it at the overage rate.
 */
module Pricing {

  datatype Resource =
    | InfraHost | APMHost | FargateTask | LambdaFunction
    | IndexedLogs | AnalyzedLogs | SyntheticsAPITest

  /** The rate per committed unit and the rate per unit beyond the commitment. */
  datatype Rates = Rates(committed: real, overage: real)

  function RatesOf(r: Resource): (p: Rates)
    ensures p.committed > 0.0 && p.overage > 0.0
  {
    match r
    case InfraHost => Rates(18.0, 0.03)
    case APMHost => Rates(36.0, 0.06)
    case FargateTask => Rates(1.2, 1.4)
    case LambdaFunction => Rates(6.0, 7.2)
    case IndexedLogs => Rates(2.04, 2.55)
    case AnalyzedLogs => Rates(0.24, 0.30)
    case SyntheticsAPITest => Rates(6.0, 7.2)
  }

  /** Hosts accumulate excess hour by hour; the others are compared as one quantity. */
  predicate IsHost(r: Resource) {
    r == InfraHost || r == APMHost
  }

  /** `if excess < 0 { excess = 0 }`. */
  function Clamp(x: real): (r: real)
    ensures r >= 0.0 && r >= x
    ensures x >= 0.0 ==> r == x
  {
    if x < 0.0 then 0.0 else x
  }

  /** Host kinds: the committed term is scaled by the elapsed share of the month, `day / monthDays`. */
  function HostCost(p: Rates, commit: real, excessHours: real, day: int, monthDays: int): real
    requires monthDays > 0
  {
    p.committed * commit * day as real / monthDays as real + p.overage * excessHours
  }

  /** Volume kinds: what the quantity exceeds the commitment by, clamped at 0, is charged at the overage rate. */
  function VolumeCost(p: Rates, commit: real, quantity: real): real {
    p.committed * commit + p.overage * Clamp(quantity - commit)
  }

  /**
   * The quantity a volume kind's commitment is compared against. Fargate tasks
   * and Lambda functions use the hourly average `total / 24 / day`; indexed
   * logs (per million), analyzed logs (per GB) and Synthetics API tests (per
   * ten thousand) are projected to the whole month, `total / unit * monthDays / day`.
   */
  function Quantity(r: Resource, total: real, day: int, monthDays: int): real
    requires !IsHost(r) && day > 0
  {
    match r
    case FargateTask => total / 24.0 / day as real
    case LambdaFunction => total / 24.0 / day as real
    case IndexedLogs => total / 1000000.0 * monthDays as real / day as real
    case AnalyzedLogs => total / 1000000000.0 * monthDays as real / day as real
    case SyntheticsAPITest => total / 10000.0 * monthDays as real / day as real
  }

  lemma HostCostNonNegative(p: Rates, commit: real, excessHours: real, day: int, monthDays: int)
    requires p.committed >= 0.0 && p.overage >= 0.0 && monthDays > 0
    requires commit >= 0.0 && excessHours >= 0.0 && day >= 0
    ensures HostCost(p, commit, excessHours, day, monthDays) >= 0.0
  {
    var share := day as real / monthDays as real;
    assert p.committed * commit * day as real / monthDays as real == (p.committed * commit) * share;
    assert p.committed * commit >= 0.0;
  }

  lemma VolumeCostNonNegative(p: Rates, commit: real, quantity: real)
    requires p.committed >= 0.0 && p.overage >= 0.0 && commit >= 0.0
    ensures VolumeCost(p, commit, quantity) >= 0.0
  {
    assert p.committed * commit >= 0.0;
    assert p.overage * Clamp(quantity - commit) >= 0.0;
  }

  /** Raising a volume commitment by d costs at most d at the committed rate. */
  lemma VolumeCostIncreaseBounded(p: Rates, commit: real, d: real, quantity: real)
    requires p.overage >= 0.0 && d >= 0.0
    ensures VolumeCost(p, commit + d, quantity) <= VolumeCost(p, commit, quantity) + p.committed * d
  {
    assert Clamp(quantity - (commit + d)) <= Clamp(quantity - commit);
    assert p.overage * Clamp(quantity - (commit + d)) <= p.overage * Clamp(quantity - commit);
    assert p.committed * (commit + d) == p.committed * commit + p.committed * d;
  }

  /** Dividing a product by the month's length is scaling it by the elapsed share. */
  lemma ScaledByShare(x: real, day: int, monthDays: int)
    requires monthDays > 0
    ensures x * day as real / monthDays as real == x * (day as real / monthDays as real)
  {
  }

  /**
   * Raising a host commitment by d, where the excess hours can then only
   * fall, costs at most d at the committed rate: the committed term grows by
   * d times the elapsed share, which is at most 1.
   */
  lemma HostCostIncreaseBounded(p: Rates, commit: real, d: real, excess: real, excess': real,
                                day: int, monthDays: int)
    requires p.committed >= 0.0 && p.overage >= 0.0 && d >= 0.0 && excess' <= excess
    requires 0 <= day <= monthDays && monthDays > 0
    ensures HostCost(p, commit + d, excess', day, monthDays)
         <= HostCost(p, commit, excess, day, monthDays) + p.committed * d
  {
    var share := day as real / monthDays as real;
    var price, extra := p.committed * commit, p.committed * d;
    assert 0.0 <= share <= 1.0;
    calc {
      HostCost(p, commit + d, excess', day, monthDays);
    == { ScaledByShare(p.committed * (commit + d), day, monthDays); }
      (p.committed * (commit + d)) * share + p.overage * excess';
    == { assert p.committed * (commit + d) == price + extra; }
      (price + extra) * share + p.overage * excess';
    == 
      price * share + extra * share + p.overage * excess';
    <= { assert extra >= 0.0; assert extra * share <= extra * 1.0; }
      price * share + extra + p.overage * excess';
    <= { assert p.overage * excess' <= p.overage * excess; }
      price * share + p.overage * excess + extra;
    == { ScaledByShare(price, day, monthDays); }
      HostCost(p, commit, excess, day, monthDays) + extra;
    }
  }

  /**
   * When overage is dearer than commitment, committing exactly the quantity
   * is the cheapest non-negative commitment.
   */
  lemma VolumeCostLeastAtQuantity(p: Rates, commit: real, quantity: real)
    requires 0.0 <= p.committed <= p.overage && commit >= 0.0 && quantity >= 0.0
    ensures VolumeCost(p, quantity, quantity) <= VolumeCost(p, commit, quantity)
  {
    if commit <= quantity {
      var gap := quantity - commit;
      assert VolumeCost(p, commit, quantity) == p.committed * commit + p.overage * gap;
      assert VolumeCost(p, quantity, quantity) == p.committed * commit + p.committed * gap;
      assert p.committed * gap <= p.overage * gap;
    } else {
      assert p.committed * quantity <= p.committed * commit;
    }
  }

  /**
   * Every volume kind charges more per unit of overage than per committed
   * unit, but less than twice as much.
   */
  lemma VolumeOverageDearer(r: Resource)
    requires !IsHost(r)
    ensures RatesOf(r).committed < RatesOf(r).overage <= 2.0 * RatesOf(r).committed
  {
  }

  /**
   * Raising a volume commitment by d saves at most d at the committed rate
   * when overage costs at most twice that rate: at most d units of overage
   * are saved, and the committed term grows by d units.
   */
  lemma VolumeCostDecreaseBounded(p: Rates, commit: real, d: real, quantity: real)
    requires 0.0 <= p.overage <= 2.0 * p.committed && d >= 0.0
    ensures VolumeCost(p, commit + d, quantity) >= VolumeCost(p, commit, quantity) - p.committed * d
  {
    var saved := Clamp(quantity - commit) - Clamp(quantity - (commit + d));
    assert 0.0 <= saved <= d;
    assert p.overage * saved <= p.overage * d <= 2.0 * p.committed * d;
    assert p.committed * (commit + d) == p.committed * commit + p.committed * d;
  }

  /**
   * No such bound holds for hosts: on the first day of a 31-day month,
   * committing 10 more infrastructure hosts costs 18 * 10 / 31 but can save
   * 7000 excess host-hours at 0.03, far more than 18 * 10.
   */
  lemma HostCostFallUnbounded()
    ensures HostCost(RatesOf(InfraHost), 10.0, 0.0, 1, 31)
          < HostCost(RatesOf(InfraHost), 0.0, 7000.0, 1, 31) - RatesOf(InfraHost).committed * 10.0
  {
  }

  /** With no excess hours a host candidate costs its committed price times the elapsed share. */
  lemma HostCostWithoutOverage(p: Rates, commit: real, day: int, monthDays: int)
    requires monthDays > 0
    ensures HostCost(p, commit, 0.0, day, monthDays) == p.committed * commit * (day as real / monthDays as real)
  {
    var share := day as real / monthDays as real;
    assert p.committed * commit * day as real / monthDays as real == (p.committed * commit) * share;
  }

  /** On the month's last day the host share is 1, so the committed term is the plain monthly price. */
  lemma HostCostAtMonthEnd(p: Rates, commit: real, excessHours: real, day: int, monthDays: int)
    requires day == monthDays && monthDays > 0
    ensures HostCost(p, commit, excessHours, day, monthDays) == p.committed * commit + p.overage * excessHours
  {
    var m := monthDays as real;
    assert p.committed * commit * m / m == p.committed * commit;
  }

  /** On the month's last day the projection to a full month leaves the quantity unscaled. */
  lemma ProjectionAtMonthEnd(r: Resource, total: real, monthDays: int)
    requires r == IndexedLogs || r == AnalyzedLogs || r == SyntheticsAPITest
    requires monthDays > 0
    ensures Quantity(r, total, monthDays, monthDays) ==
      total / (if r == IndexedLogs then 1000000.0 else if r == AnalyzedLogs then 1000000000.0 else 10000.0)
  {
    var m := monthDays as real;
    var unit := if r == IndexedLogs then 1000000.0 else if r == AnalyzedLogs then 1000000000.0 else 10000.0;
    assert total / unit * m / m == total / unit;
  }
}
