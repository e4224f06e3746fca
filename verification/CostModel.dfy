/** The economic gate in front of a re-route, over real numbers. */
module CostModel {
  datatype CostConfig = CostConfig(
    baseFeePaise: int,
    perKmRatePaise: int,
    acceptableDelayMin: real,
    penaltyPerMinPaise: int)

  const DEFAULT_CONFIG := CostConfig(2500, 1000, 1.0, 1500)

  /** Rounds to the nearest integer, halves away from zero. */
  function Round(x: real): int {
    if x >= 0.0 then (x + 0.5).Floor else -((0.5 - x).Floor)
  }

  function ReRouteCost(cfg: CostConfig, distKm: real): int {
    DistanceCost(cfg.baseFeePaise as real, cfg.perKmRatePaise as real, if distKm < 0.0 then 0.0 else distKm)
  }

  function DistanceCost(base: real, perKm: real, km: real): int {
    Round(base + perKm * km)
  }

  function BreachPenalty(cfg: CostConfig, delayMin: real): int {
    if delayMin <= cfg.acceptableDelayMin then 0
    else ExcessPenalty(delayMin - cfg.acceptableDelayMin, cfg.penaltyPerMinPaise as real)
  }

  function ExcessPenalty(excessMin: real, perMin: real): int {
    Round(excessMin * perMin)
  }

  predicate GateOpen(cfg: CostConfig, distKm: real, delayMin: real) {
    ReRouteCost(cfg, distKm) < BreachPenalty(cfg, delayMin)
  }

  /** Minutes of delay predicted from the number of waiting orders. */
  function PredictedDelayMin(waiting: int): real {
    waiting as real * 1.336 / 60.0
  }

  /** Rounding is monotone and lands within half a unit. */
  lemma RoundMonotone(x: real, y: real)
    requires x <= y
    ensures Round(x) <= Round(y)
    ensures x - 0.5 <= Round(x) as real <= x + 0.5
  {
  }

  /** The whole number nearest to `x`; of two, the one further from zero. */
  predicate IsNearest(x: real, n: int) {
    if x >= 0.0 then n as real - 0.5 <= x < n as real + 0.5 else n as real - 0.5 < x <= n as real + 0.5
  }

  predicate IsNearestSum(base: real, rate: real, amount: real, n: int) {
    IsNearest(base + rate * amount, n)
  }

  predicate IsNearestProduct(amount: real, rate: real, n: int) {
    IsNearest(amount * rate, n)
  }

  lemma RoundIsNearest(x: real, n: int)
    ensures IsNearest(x, n) <==> n == Round(x)
  {
  }

  lemma ProductMonotone(k: real, a: real, b: real)
    requires 0.0 <= k && a <= b
    ensures k * a <= k * b
  {
  }

  lemma CostMonotone(cfg: CostConfig, d: real, d': real)
    requires cfg.perKmRatePaise >= 0 && d <= d'
    ensures ReRouteCost(cfg, d) <= ReRouteCost(cfg, d')
  {
    DistanceCostMonotone(cfg.baseFeePaise as real, cfg.perKmRatePaise as real,
                         if d < 0.0 then 0.0 else d, if d' < 0.0 then 0.0 else d');
  }

  lemma DistanceCostMonotone(base: real, perKm: real, c: real, c': real)
    requires perKm >= 0.0 && c <= c'
    ensures DistanceCost(base, perKm, c) <= DistanceCost(base, perKm, c')
  {
    ProductMonotone(perKm, c, c');
    RoundMonotone(base + perKm * c, base + perKm * c');
  }

  /** The cost is the whole number nearest to the base fee and the rate times the distance. */
  lemma DistanceCostIsNearest(base: real, perKm: real, km: real, cost: int)
    ensures IsNearestSum(base, perKm, km, cost) <==> cost == DistanceCost(base, perKm, km)
  {
    RoundIsNearest(base + perKm * km, cost);
  }

  lemma ExcessPenaltyIsNearest(excessMin: real, perMin: real, penalty: int)
    ensures IsNearestProduct(excessMin, perMin, penalty) <==> penalty == ExcessPenalty(excessMin, perMin)
  {
    RoundIsNearest(excessMin * perMin, penalty);
  }

  lemma PenaltyMonotone(cfg: CostConfig, m: real, m': real)
    requires cfg.penaltyPerMinPaise >= 0 && m <= m'
    ensures 0 <= BreachPenalty(cfg, m) <= BreachPenalty(cfg, m')
  {
    var k := cfg.penaltyPerMinPaise as real;
    var a := m - cfg.acceptableDelayMin;
    var a' := m' - cfg.acceptableDelayMin;
    ExcessMonotone(k, a, a');
  }

  lemma ExcessMonotone(k: real, a: real, a': real)
    requires 0.0 <= k && a <= a'
    ensures ExcessPenalty(a, k) <= ExcessPenalty(a', k)
    ensures 0.0 <= a ==> 0 <= ExcessPenalty(a, k)
    ensures 0.0 <= a' ==> 0 <= ExcessPenalty(a', k)
  {
    ProductMonotone(k, a, a');
    assert a * k == k * a && a' * k == k * a';
    RoundMonotone(a * k, a' * k);
    if 0.0 <= a {
      ProductMonotone(k, 0.0, a);
    }
    if 0.0 <= a' {
      ProductMonotone(k, 0.0, a');
    }
  }

  /**
   * For rates that are not negative an open gate stays open when more orders wait
   * or the target is nearer.
   */
  lemma GateMonotone(cfg: CostConfig, d: real, d': real, waiting: int, waiting': int)
    requires cfg.perKmRatePaise >= 0 && cfg.penaltyPerMinPaise >= 0
    requires d' <= d && waiting <= waiting'
    requires GateOpen(cfg, d, PredictedDelayMin(waiting))
    ensures GateOpen(cfg, d', PredictedDelayMin(waiting'))
  {
    CostMonotone(cfg, d', d);
    PenaltyMonotone(cfg, PredictedDelayMin(waiting), PredictedDelayMin(waiting'));
  }

  /**
   * The gate's two bounds with the default rates. It is shut below 120 waiting
   * orders whatever the distance, open from 165 on for every target in range, and
   * both numbers are the best possible.
   */
  lemma DefaultGateBounds(d: real, waiting: int)
    ensures waiting < 120 ==> !GateOpen(DEFAULT_CONFIG, d, PredictedDelayMin(waiting))
    ensures waiting >= 165 && d <= 1.5 ==> GateOpen(DEFAULT_CONFIG, d, PredictedDelayMin(waiting))
    ensures GateOpen(DEFAULT_CONFIG, 0.0, PredictedDelayMin(120))
    ensures !GateOpen(DEFAULT_CONFIG, 1.5, PredictedDelayMin(164))
  {
    DefaultGateCorners();
    if waiting < 120 {
      CostMonotone(DEFAULT_CONFIG, if d < 0.0 then d else 0.0, d);
      PenaltyMonotone(DEFAULT_CONFIG, PredictedDelayMin(waiting), PredictedDelayMin(119));
    }
    if waiting >= 165 && d <= 1.5 {
      GateMonotone(DEFAULT_CONFIG, 1.5, d, 165, waiting);
    }
  }

  lemma DefaultGateCorners()
    ensures !GateOpen(DEFAULT_CONFIG, 0.0, PredictedDelayMin(119))
    ensures GateOpen(DEFAULT_CONFIG, 0.0, PredictedDelayMin(120))
    ensures !GateOpen(DEFAULT_CONFIG, 1.5, PredictedDelayMin(164))
    ensures GateOpen(DEFAULT_CONFIG, 1.5, PredictedDelayMin(165))
  {
    assert ReRouteCost(DEFAULT_CONFIG, 0.0) == 2500;
    assert ReRouteCost(DEFAULT_CONFIG, 1.5) == 4000;
    assert BreachPenalty(DEFAULT_CONFIG, PredictedDelayMin(119)) == 2475;
    assert BreachPenalty(DEFAULT_CONFIG, PredictedDelayMin(120)) == 2508;
    assert BreachPenalty(DEFAULT_CONFIG, PredictedDelayMin(164)) == 3978;
    assert BreachPenalty(DEFAULT_CONFIG, PredictedDelayMin(165)) == 4011;
  }
}
