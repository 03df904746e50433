/**
 * The simulator (packages/simulation-lib/simulator.ts): it validates the
 * interval of its configuration, owns one generator seeded once, and each
 * call of `run` simulates a non-leap year tick by tick `totalRuns` times,
 * with a fresh parking lot per run, averaging the results over the runs.
 *
 * The pure part (`Tick`, `TicksFrom`, `YearRun`, `Runs`, `Report`) says what
 * one call of `run` computes from the generator state it starts in; the
 * class `Simulator` performs it with the loops of the source, and its
 * methods are proved to agree with those functions.  The bounds the result
 * obeys and the draw accounting of the shared generator are lemmas about
 * the functions.
 *
 * The hour of the day of each tick comes from a calendar in the configured
 * time zone; the model takes it as a function from the tick number to the
 * hour, and `UtcHourOfDay` is that function for the default zone, UTC.
 */
module Simulation {
  import opened Options
  import opened Xorshift
  import opened Vehicles
  import opened ChargePoints
  import opened ParkingLots

  /** Minutes in a non-leap year: 365 * 24 * 60. */
  const MinutesInANonLeapYear: int := 525600

  const DefaultSeed: int := 1337
  const DefaultInterval: int := 15
  const DefaultTimezone: string := "UTC"
  const DefaultChargeSpeed: real := 11.0
  const DefaultConsumption: real := 18.0
  const IntervalError: string := "Interval should be a positive divisor of 60"

  /** `SimulatorConfig`: every property may be omitted. */
  datatype SimulatorConfig = SimulatorConfig(
    seed: Option<int>,
    totalRuns: Option<int>,
    interval: Option<int>,
    timezone: Option<string>)

  /** `SimulationParameters`: only the number of charge points is required. */
  datatype SimulationParameters = SimulationParameters(
    chargePointChargeSpeed: Option<real>,
    consumptionOfCars: Option<real>,
    numberOfChargePoints: int,
    arrivalProbabilityMultiplier: Option<real>)

  /** `SimulationResult`: the averages over the runs. */
  datatype SimulationResult = SimulationResult(
    totalEnergyConsumed: real,
    theoreticalMaximumPowerDemand: real,
    actualMaximumPowerDemand: real,
    concurrencyFactor: real,
    energyPerChargePoint: seq<PointEnergy>)

  /**
   * The constructor's check: an interval that is set must be a positive
   * divisor of 60, except that 0, being falsy, is let through.
   */
  predicate IntervalRejected(config: SimulatorConfig)
  {
    match config.interval
    case None => false
    case Some(i) => i != 0 && (i <= 0 || 60 % i != 0)
  }

  /** The intervals the constructor accepts: none at all, 0, or one of the twelve divisors of 60. */
  lemma {:induction false} IntervalAccepted(config: SimulatorConfig)
    ensures !IntervalRejected(config) <==>
      config.interval.None? || config.interval.value in {0, 1, 2, 3, 4, 5, 6, 10, 12, 15, 20, 30, 60}
    ensures !IntervalRejected(config) && config.interval != Some(0) ==> DividesHour(IntervalOf(config))
  {
    if config.interval.Some? {
      var i := config.interval.value;
      if i > 60 {
        assert 60 % i == 60;
      } else if 0 < i {
        DivisorsOfSixty(i);
      }
    }
  }

  /** The divisors of 60 up to 60 are exactly the twelve listed. */
  lemma DivisorsOfSixty(i: int)
    requires 0 < i <= 60
    ensures 60 % i == 0 <==> i in {1, 2, 3, 4, 5, 6, 10, 12, 15, 20, 30, 60}
  {
    if i <= 10 {
      SmallDivisorsOfSixty(i);
    } else {
      LargeDivisorsOfSixty(i);
    }
  }

  lemma SmallDivisorsOfSixty(i: int)
    requires 0 < i <= 10
    ensures 60 % i == 0 <==> i in {1, 2, 3, 4, 5, 6, 10}
  {
    assert i == 1 || i == 2 || i == 3 || i == 4 || i == 5 || i == 6 || i == 7 || i == 8 || i == 9 || i == 10;
  }

  lemma LargeDivisorsOfSixty(i: int)
    requires 10 < i <= 60
    ensures 60 % i == 0 <==> i in {12, 15, 20, 30, 60}
  {
    var q := if i > 30 then 1 else if i > 20 then 2 else if i > 15 then 3 else if i > 12 then 4 else 5;
    RemainderOfQuotient(60, i, q);
  }

  /** When `q * d <= n < (q + 1) * d`, the remainder of `n` by `d` is `n - q * d`. */
  lemma RemainderOfQuotient(n: int, d: int, q: int)
    requires d > 0 && q * d <= n < (q + 1) * d
    ensures n % d == n - q * d
  {
    var k, r := n / d, n % d;
    assert n == k * d + r && 0 <= r < d;
    ScaleMonotone(k + 1, q, d);
    ScaleMonotone(q + 1, k, d);
    assert k == q;
  }

  /** Multiplying by a positive `d` keeps the order of `a` and `b`. */
  lemma ScaleMonotone(a: int, b: int, d: int)
    requires d > 0
    ensures a <= b ==> a * d <= b * d
  {
    if a <= b {
      assert b * d == a * d + (b - a) * d;
    }
  }

  /** The check on sample intervals: 7 is rejected; 15, 0 and an omitted interval are not. */
  lemma IntervalExamples(seed: Option<int>, totalRuns: Option<int>, timezone: Option<string>)
    ensures IntervalRejected(SimulatorConfig(seed, totalRuns, Some(7), timezone))
    ensures !IntervalRejected(SimulatorConfig(seed, totalRuns, Some(15), timezone))
    ensures !IntervalRejected(SimulatorConfig(seed, totalRuns, Some(0), timezone))
    ensures !IntervalRejected(SimulatorConfig(seed, totalRuns, None, timezone))
  {
  }

  /** `seed ?? 1337` */
  function SeedOf(config: SimulatorConfig): int
  {
    config.seed.GetOr(DefaultSeed)
  }

  /** `interval ?? 15` */
  function IntervalOf(config: SimulatorConfig): int
  {
    config.interval.GetOr(DefaultInterval)
  }

  /** `totalRuns || 1`: an omitted count and the count 0 both mean one run. */
  function TotalRunsOf(config: SimulatorConfig): (runs: int)
    ensures runs != 0
  {
    match config.totalRuns
    case None => 1
    case Some(k) => if k == 0 then 1 else k
  }

  /** `timezone ?? "UTC"` */
  function TimezoneOf(config: SimulatorConfig): string
  {
    config.timezone.GetOr(DefaultTimezone)
  }

  /** `chargePointChargeSpeed ?? 11` */
  function SpeedOf(parameters: SimulationParameters): real
  {
    parameters.chargePointChargeSpeed.GetOr(DefaultChargeSpeed)
  }

  /** `consumptionOfCars ?? 18` */
  function ConsumptionOf(parameters: SimulationParameters): real
  {
    parameters.consumptionOfCars.GetOr(DefaultConsumption)
  }

  /** The defaults of an empty configuration and of omitted parameters; a given value is used as it is. */
  lemma {:induction false} Defaults(config: SimulatorConfig, parameters: SimulationParameters)
    ensures config == SimulatorConfig(None, None, None, None) ==>
      SeedOf(config) == 1337 && IntervalOf(config) == 15 && TotalRunsOf(config) == 1 && TimezoneOf(config) == "UTC"
    ensures config.totalRuns == Some(0) ==> TotalRunsOf(config) == 1
    ensures config.totalRuns.Some? && config.totalRuns.value != 0 ==> TotalRunsOf(config) == config.totalRuns.value
    ensures config.seed.Some? ==> SeedOf(config) == config.seed.value
    ensures config.interval.Some? ==> IntervalOf(config) == config.interval.value
    ensures parameters.chargePointChargeSpeed.None? ==> SpeedOf(parameters) == 11.0
    ensures parameters.consumptionOfCars.None? ==> ConsumptionOf(parameters) == 18.0
  {
  }

  /** The loop bound of the year: `525600 / interval` ticks. */
  function TicksPerYear(interval: int): nat
    requires DividesHour(interval)
  {
    MinutesInANonLeapYear / interval
  }

  /** For a divisor of 60 the year is a whole number of ticks, at least one per hour. */
  lemma TicksPerYearWhole(interval: int)
    requires DividesHour(interval)
    ensures TicksPerYear(interval) * interval == MinutesInANonLeapYear
    ensures TicksPerYear(interval) >= 8760
  {
    DivisorsOfSixty(interval);
  }

  /** The hour of the day of tick `tick` for the time zone UTC, starting on 2025-01-01 at 00:00. */
  function UtcHourOfDay(interval: int): (hourOf: int -> int)
  {
    tick => (tick * interval / 60) % 24
  }

  /**
   * In UTC a tick of the year falls in the hour of its minute of the day,
   * and the hours repeat after one day's worth of ticks.
   */
  lemma UtcHourFacts(interval: int, tick: int)
    requires DividesHour(interval) && tick >= 0
    ensures 0 <= UtcHourOfDay(interval)(tick) < 24
    ensures UtcHourOfDay(interval)(tick) == (tick * interval % 1440) / 60
    ensures UtcHourOfDay(interval)(tick + 1440 / interval) == UtcHourOfDay(interval)(tick)
  {
    DayOfTicks(interval);
    var minute := tick * interval;
    NonNegativeTimes(tick, interval);
    assert (tick + 1440 / interval) * interval == minute + 1440;
    HourOfMinute(minute);
  }

  /** A day is a whole number of intervals. */
  lemma DayOfTicks(interval: int)
    requires DividesHour(interval)
    ensures (1440 / interval) * interval == 1440
  {
    DivisorsOfSixty(interval);
  }

  lemma NonNegativeTimes(a: int, b: int)
    requires a >= 0 && b >= 0
    ensures a * b >= 0
  {
  }

  /** The hour of a minute is the hour of its minute of the day, and repeats a day later. */
  lemma HourOfMinute(minute: int)
    requires minute >= 0
    ensures (minute / 60) % 24 == (minute % 1440) / 60
    ensures ((minute + 1440) / 60) % 24 == (minute / 60) % 24
  {
    var day, rest := minute / 1440, minute % 1440;
    assert minute == day * 1440 + rest && 0 <= rest < 1440;
    assert minute / 60 == day * 24 + rest / 60;
    assert (minute + 1440) / 60 == minute / 60 + 24;
  }

  /** In UTC every tick falls in an hour of the day, so every point's turn draws once or twice. */
  lemma {:induction false} UtcHoursAreHoursOfDay(interval: int, tick: int, n: nat, multiplier: real, g: bv32)
    ensures 0 <= UtcHourOfDay(interval)(tick) < 24
    ensures n <= Draws(n, UtcHourOfDay(interval)(tick), multiplier, g) <= 2 * n
  {
    DrawsBounds(n, UtcHourOfDay(interval)(tick), multiplier, g);
  }

  /** What one call of `run` fixes before its loops. */
  datatype Plan = Plan(points: nat, speed: real, consumption: real, interval: int, multiplier: Option<real>)
  {
    /** Values for which the simulation is well defined: at least one point, a positive speed, a divisor of 60. */
    predicate Valid()
    {
      points >= 1 && speed > 0.0 && consumption >= 0.0 && DividesHour(interval)
    }

    /** `numberOfChargePoints * chargePointChargeSpeed` */
    function Theoretical(): (r: real)
      ensures Valid() ==> r > 0.0
    {
      PositiveProduct(points as real, speed);
      points as real * speed
    }
  }

  lemma PositiveProduct(a: real, b: real)
    ensures a > 0.0 && b > 0.0 ==> a * b > 0.0
  {
  }

  /** The plan `run` derives from the configuration and the parameters. */
  function PlanOf(config: SimulatorConfig, parameters: SimulationParameters): Plan
    requires parameters.numberOfChargePoints >= 0
  {
    Plan(parameters.numberOfChargePoints, SpeedOf(parameters), ConsumptionOf(parameters),
         IntervalOf(config), parameters.arrivalProbabilityMultiplier)
  }

  /** The values one run carries from tick to tick: the points, the generator and the maximum demand so far. */
  datatype Year = Year(states: seq<PointState>, generator: bv32, maxDemand: real)

  /** `Math.max` */
  function Max(a: real, b: real): (m: real)
    ensures m >= a && m >= b && (m == a || m == b)
  {
    if b > a then b else a
  }

  /** The points of a fresh lot: `n` idle points at speed `speed`. */
  function Idles(n: nat, speed: real): (r: seq<PointState>)
    ensures |r| == n
  {
    seq(n, _ => Idle(speed))
  }

  /**
   * A fresh lot: every point has the given speed and is valid for a positive
   * speed and an accepted interval; it draws no power and has consumed no energy.
   */
  lemma {:induction false} IdlesFresh(n: nat, speed: real, interval: int)
    ensures UniformSpeed(Idles(n, speed), speed)
    ensures speed > 0.0 && DividesHour(interval) ==> AllValid(Idles(n, speed), interval)
    ensures OccupiedPoints(Idles(n, speed)) == []
    ensures InstantaneousPower(Idles(n, speed)) == 0.0
    ensures TotalEnergy(Idles(n, speed)) == 0.0
  {
    if n > 0 {
      IdlesFresh(n - 1, speed, interval);
      IdlesNext(n - 1, speed);
      var r := Idles(n, speed);
      assert r[..n - 1] == Idles(n - 1, speed);
      assert r[n - 1] == Idle(speed);
    }
  }

  /** One more idle point at the end of a fresh lot. */
  lemma IdlesNext(n: nat, speed: real)
    ensures Idles(n + 1, speed) == Idles(n, speed) + [Idle(speed)]
  {
    assert Idles(n + 1, speed)[..n] == Idles(n, speed);
  }

  /** Every point of a lot has speed `speed`. */
  predicate UniformSpeed(states: seq<PointState>, speed: real)
  {
    forall i :: 0 <= i < |states| ==> states[i].maxChargeSpeed == speed
  }

  /**
   * One tick of a run in hour `hour`: the arrival pass for the hour, then
   * the eviction pass, then the sampled instantaneous demand joins the
   * maximum.
   */
  function Tick(p: Plan, hour: int, y: Year): (r: Year)
    requires p.Valid() && AllValid(y.states, p.interval)
    ensures AllValid(r.states, p.interval) && |r.states| == |y.states|
    ensures UniformSpeed(y.states, p.speed) ==> UniformSpeed(r.states, p.speed)
    ensures r.maxDemand == Max(y.maxDemand, InstantaneousPower(r.states))
  {
    var turns := Turns(|y.states|, hour, p.multiplier.GetOr(100.0), y.generator);
    var arrived := ArrivalPass(y.states, turns.0, p.consumption, p.interval);
    var evicted := EvictionPass(arrived, p.interval);
    ArrivalPassAt(y.states, turns.0, p.consumption, p.interval);
    EvictionPassAt(arrived, p.interval);
    Year(evicted, turns.1, Max(y.maxDemand, InstantaneousPower(evicted)))
  }

  /** Ticks 1 to `k` of a run from `start`, tick `t` falling in hour `hourOf(t)`. */
  function TicksFrom(p: Plan, hourOf: int -> int, k: nat, start: Year): (r: Year)
    requires p.Valid() && AllValid(start.states, p.interval)
    ensures AllValid(r.states, p.interval) && |r.states| == |start.states|
    ensures UniformSpeed(start.states, p.speed) ==> UniformSpeed(r.states, p.speed)
    decreases k, 1
  {
    if k == 0 then start else TickAt(p, hourOf, k, start)
  }

  /** Tick `k` of a run from `start`: one tick after ticks 1 to `k - 1`. */
  function TickAt(p: Plan, hourOf: int -> int, k: nat, start: Year): (r: Year)
    requires p.Valid() && AllValid(start.states, p.interval) && k >= 1
    ensures AllValid(r.states, p.interval) && |r.states| == |start.states|
    ensures UniformSpeed(start.states, p.speed) ==> UniformSpeed(r.states, p.speed)
    decreases k, 0
  {
    Tick(p, hourOf(k), TicksFrom(p, hourOf, k - 1, start))
  }

  /** `y` is where the run from `start` stands after its first `k` ticks. */
  ghost predicate AtTick(p: Plan, hourOf: int -> int, k: nat, start: Year, y: Year)
  {
    p.Valid() && AllValid(start.states, p.interval) && y == TicksFrom(p, hourOf, k, start)
  }

  /** The start of a run from generator state `g`: a fresh lot and the maximum demand at -1. */
  function YearStart(p: Plan, g: bv32): (y: Year)
    requires p.Valid()
    ensures AllValid(y.states, p.interval) && |y.states| == p.points && UniformSpeed(y.states, p.speed)
  {
    IdlesFresh(p.points, p.speed, p.interval);
    Year(Idles(p.points, p.speed), g, -1.0)
  }

  /** One run from generator state `g`: the whole year of ticks over a fresh lot. */
  function YearRun(p: Plan, hourOf: int -> int, g: bv32): (y: Year)
    requires p.Valid()
    ensures AllValid(y.states, p.interval) && |y.states| == p.points && UniformSpeed(y.states, p.speed)
  {
    TicksFrom(p, hourOf, TicksPerYear(p.interval), YearStart(p, g))
  }

  /** The running sums of `run` after some runs, and the generator state they leave. */
  datatype Totals = Totals(
    energy: real,
    maxDemand: real,
    concurrency: real,
    perPoint: seq<PointEnergy>,
    generator: bv32)

  /** The element-wise sum of two per-point tables of the same length. */
  function AddEnergies(a: seq<PointEnergy>, b: seq<PointEnergy>): (r: seq<PointEnergy>)
    requires |a| == |b|
    ensures |r| == |a|
  {
    seq(|a|, i requires 0 <= i < |a| =>
      PointEnergy(a[i].maxChargeSpeed + b[i].maxChargeSpeed, a[i].totalEnergyConsumed + b[i].totalEnergyConsumed))
  }

  /** A per-point table of `n` zero entries, as `run` creates it. */
  function ZeroEnergies(n: nat): (r: seq<PointEnergy>)
    ensures |r| == n
  {
    seq(n, _ => PointEnergy(0.0, 0.0))
  }

  /** The sums after one more run whose year ended as `year`: its results join those of `prev`. */
  function AddYear(p: Plan, prev: Totals, year: Year): (t: Totals)
    requires p.Valid() && |prev.perPoint| == |year.states|
    ensures |t.perPoint| == |prev.perPoint| && t.generator == year.generator
  {
    Totals(prev.energy + TotalEnergy(year.states),
           prev.maxDemand + year.maxDemand,
           prev.concurrency + year.maxDemand / p.Theoretical(),
           AddEnergies(prev.perPoint, EnergyPerPoint(year.states)),
           year.generator)
  }

  /** The first `k` runs from generator state `g`, each one starting where the previous one left the generator. */
  function Runs(p: Plan, hourOf: int -> int, k: nat, g: bv32): (t: Totals)
    requires p.Valid()
    ensures |t.perPoint| == p.points
    decreases k, 1
  {
    if k == 0 then Totals(0.0, 0.0, 0.0, ZeroEnergies(p.points), g) else RunsLast(p, hourOf, k, g)
  }

  /** The first `k >= 1` runs: the first `k - 1`, then one more from the state they leave the generator in. */
  function RunsLast(p: Plan, hourOf: int -> int, k: nat, g: bv32): (t: Totals)
    requires p.Valid() && k >= 1
    ensures |t.perPoint| == p.points
    decreases k, 0
  {
    var prev := Runs(p, hourOf, k - 1, g);
    AddYear(p, prev, YearRun(p, hourOf, prev.generator))
  }

  /** The element-wise averages of a per-point table over `runs` runs. */
  function Averages(table: seq<PointEnergy>, runs: int): (r: seq<PointEnergy>)
    requires runs != 0
    ensures |r| == |table|
  {
    seq(|table|, i requires 0 <= i < |table| =>
      PointEnergy(table[i].maxChargeSpeed / runs as real, table[i].totalEnergyConsumed / runs as real))
  }

  /** The result of `run`: the sums divided by `totalRuns`, the concurrency factor as a percentage. */
  function Report(p: Plan, runs: int, t: Totals): SimulationResult
    requires runs != 0
  {
    SimulationResult(
      t.energy / runs as real,
      p.Theoretical(),
      t.maxDemand / runs as real,
      (t.concurrency / runs as real) * 100.0,
      Averages(t.perPoint, runs))
  }

  /** The number of runs the loop `for (run = 0; run < totalRuns; run++)` performs. */
  function RunsPerformed(totalRuns: int): nat
  {
    if totalRuns > 0 then totalRuns else 0
  }

  /** What a call of `run` returns and where it leaves the generator, from generator state `g`. */
  function Simulate(config: SimulatorConfig, parameters: SimulationParameters, hourOf: int -> int, g: bv32)
    : (r: (SimulationResult, bv32))
    requires parameters.numberOfChargePoints >= 0 && PlanOf(config, parameters).Valid()
  {
    var p := PlanOf(config, parameters);
    var t := Runs(p, hourOf, RunsPerformed(TotalRunsOf(config)), g);
    (Report(p, TotalRunsOf(config), t), t.generator)
  }

  /** A result reported from the totals of all the runs of a call is what `Simulate` says the call returns. */
  lemma Reported(config: SimulatorConfig, parameters: SimulationParameters, hourOf: int -> int, g: bv32,
                 t: Totals, result: SimulationResult)
    requires parameters.numberOfChargePoints >= 0 && PlanOf(config, parameters).Valid()
    requires t == Runs(PlanOf(config, parameters), hourOf, RunsPerformed(TotalRunsOf(config)), g)
    requires result == Report(PlanOf(config, parameters), TotalRunsOf(config), t)
    ensures (result, t.generator) == Simulate(config, parameters, hourOf, g)
  {
  }

  // ---------------------------------------------------------------------
  // Bounds of the results

  /** The speeds of `n` points of speed `speed` add up to `n * speed`. */
  lemma {:induction false} UniformSpeedSum(states: seq<PointState>, speed: real)
    requires UniformSpeed(states, speed)
    ensures SumOfSpeeds(states) == |states| as real * speed
  {
    if states != [] {
      var front := states[..|states| - 1];
      assert UniformSpeed(front, speed) by {
        forall i | 0 <= i < |front| ensures front[i].maxChargeSpeed == speed {
          assert front[i] == states[i];
        }
      }
      UniformSpeedSum(front, speed);
      assert (|states| - 1) as real * speed + speed == |states| as real * speed;
    }
  }

  /**
   * After at least one tick of a run over points of the plan's speed, the
   * maximum demand lies between 0 and the theoretical maximum, and the
   * points keep their speed.
   */
  lemma {:induction false} TicksBounds(p: Plan, hourOf: int -> int, k: nat, start: Year)
    requires p.Valid() && AllValid(start.states, p.interval)
    requires |start.states| == p.points && UniformSpeed(start.states, p.speed)
    requires start.maxDemand <= p.Theoretical()
    ensures TicksFrom(p, hourOf, k, start).maxDemand <= p.Theoretical()
    ensures k >= 1 ==> TicksFrom(p, hourOf, k, start).maxDemand >= 0.0
  {
    if k > 0 {
      var n := k - 1;
      TicksBounds(p, hourOf, n, start);
      var y := TicksFrom(p, hourOf, k, start);
      var prev := TicksFrom(p, hourOf, n, start);
      LastTick(p, hourOf, k, n, start);
      TickBounds(p, y, prev);
    }
  }

  /** The bound of one tick: the new maximum joins the old one and the demand of points of the plan's speed. */
  lemma {:induction false} TickBounds(p: Plan, y: Year, prev: Year)
    requires p.Valid() && AllValid(y.states, p.interval)
    requires |y.states| == p.points && UniformSpeed(y.states, p.speed)
    requires y.maxDemand == Max(prev.maxDemand, InstantaneousPower(y.states))
    requires prev.maxDemand <= p.Theoretical()
    ensures 0.0 <= y.maxDemand <= p.Theoretical()
  {
    UniformSpeedSum(y.states, p.speed);
    ValidPowerBounds(y.states, p.interval);
  }

  /**
   * One run: the maximum demand lies between 0 and `n * speed`, the energy
   * is not negative, and the run reports every point's speed and a
   * non-negative energy.
   */
  lemma {:induction false} YearBounds(p: Plan, hourOf: int -> int, g: bv32)
    requires p.Valid()
    ensures var y := YearRun(p, hourOf, g);
      && 0.0 <= y.maxDemand <= p.Theoretical()
      && 0.0 <= y.maxDemand / p.Theoretical() <= 1.0
      && TotalEnergy(y.states) >= 0.0
      && forall i :: 0 <= i < p.points ==>
           EnergyPerPoint(y.states)[i].maxChargeSpeed == p.speed
           && EnergyPerPoint(y.states)[i].totalEnergyConsumed >= 0.0
  {
    var start := YearStart(p, g);
    TicksBounds(p, hourOf, TicksPerYear(p.interval), start);
    YearFacts(p, YearRun(p, hourOf, g));
  }

  /** The facts of `YearBounds` about any year of valid points of the plan's speed with a bounded maximum. */
  lemma {:induction false} YearFacts(p: Plan, y: Year)
    requires p.Valid() && AllValid(y.states, p.interval)
    requires |y.states| == p.points && UniformSpeed(y.states, p.speed)
    requires 0.0 <= y.maxDemand <= p.Theoretical()
    ensures 0.0 <= y.maxDemand / p.Theoretical() <= 1.0
    ensures TotalEnergy(y.states) >= 0.0
    ensures forall i :: 0 <= i < p.points ==>
      EnergyPerPoint(y.states)[i].maxChargeSpeed == p.speed
      && EnergyPerPoint(y.states)[i].totalEnergyConsumed >= 0.0
  {
    ValidEnergyNonNegative(y.states, p.interval);
    ValidFields(y.states, p.interval);
    EnergyPerPointAt(y.states);
    FractionBounds(y.maxDemand, p.Theoretical());
  }

  /** A value between 0 and a positive bound, over that bound, lies between 0 and 1. */
  lemma FractionBounds(x: real, bound: real)
    requires 0.0 <= x <= bound && bound > 0.0
    ensures 0.0 <= x / bound <= 1.0
  {
  }

  /**
   * After `k` runs the sums lie between 0 and `k` times the bound of one
   * run, and each point's speed has been added `k` times.
   */
  lemma {:induction false} RunsBounds(p: Plan, hourOf: int -> int, k: nat, g: bv32)
    requires p.Valid()
    ensures var t := Runs(p, hourOf, k, g);
      && 0.0 <= t.maxDemand <= k as real * p.Theoretical()
      && 0.0 <= t.concurrency <= k as real
      && t.energy >= 0.0
      && forall i :: 0 <= i < p.points ==>
           t.perPoint[i].maxChargeSpeed == k as real * p.speed && t.perPoint[i].totalEnergyConsumed >= 0.0
  {
    if k > 0 {
      var n := k - 1;
      RunsBounds(p, hourOf, n, g);
      var prev := Runs(p, hourOf, n, g);
      YearBounds(p, hourOf, prev.generator);
      LastRun(p, hourOf, k, n, g);
      RunStep(p, k, n, prev, YearRun(p, hourOf, prev.generator), Runs(p, hourOf, k, g));
    }
  }

  /** The bounds of `RunsBounds` carry over from `n` runs to `k == n + 1` runs through one more year. */
  lemma {:induction false} RunStep(p: Plan, k: nat, n: nat, prev: Totals, year: Year, t: Totals)
    requires p.Valid() && k == n + 1
    requires |prev.perPoint| == p.points && |year.states| == p.points
    requires 0.0 <= prev.maxDemand <= n as real * p.Theoretical()
    requires 0.0 <= prev.concurrency <= n as real
    requires prev.energy >= 0.0
    requires forall i :: 0 <= i < p.points ==>
      prev.perPoint[i].maxChargeSpeed == n as real * p.speed && prev.perPoint[i].totalEnergyConsumed >= 0.0
    requires 0.0 <= year.maxDemand <= p.Theoretical()
    requires 0.0 <= year.maxDemand / p.Theoretical() <= 1.0
    requires TotalEnergy(year.states) >= 0.0
    requires forall i :: 0 <= i < p.points ==>
      EnergyPerPoint(year.states)[i].maxChargeSpeed == p.speed
      && EnergyPerPoint(year.states)[i].totalEnergyConsumed >= 0.0
    requires t.energy == prev.energy + TotalEnergy(year.states)
    requires t.maxDemand == prev.maxDemand + year.maxDemand
    requires t.concurrency == prev.concurrency + year.maxDemand / p.Theoretical()
    requires t.perPoint == AddEnergies(prev.perPoint, EnergyPerPoint(year.states))
    ensures 0.0 <= t.maxDemand <= k as real * p.Theoretical()
    ensures 0.0 <= t.concurrency <= k as real
    ensures t.energy >= 0.0
    ensures forall i :: 0 <= i < p.points ==>
      t.perPoint[i].maxChargeSpeed == k as real * p.speed && t.perPoint[i].totalEnergyConsumed >= 0.0
  {
    assert n as real * p.Theoretical() + p.Theoretical() == k as real * p.Theoretical();
    assert n as real * p.speed + p.speed == k as real * p.speed;
  }

  /** A sum of `k` values between 0 and `bound`, averaged over `k`, lies between 0 and `bound`. */
  lemma MeanBounds(sum: real, k: int, bound: real)
    requires k >= 1 && 0.0 <= sum <= k as real * bound
    ensures 0.0 <= sum / k as real <= bound
  {
    assert sum / k as real <= (k as real * bound) / k as real;
  }

  /**
   * The result of `run`: the theoretical maximum is `n * speed`, the mean
   * maximum demand lies between 0 and it, the concurrency factor between 0
   * and 100, the energies are not negative, and the table has one entry per
   * point which, when at least one run is made, holds the point's speed.
   */
  lemma {:induction false} SimulateBounds(config: SimulatorConfig, parameters: SimulationParameters,
                                          hourOf: int -> int, g: bv32)
    requires parameters.numberOfChargePoints >= 0 && PlanOf(config, parameters).Valid()
    ensures var r := Simulate(config, parameters, hourOf, g).0;
      && r.theoreticalMaximumPowerDemand == parameters.numberOfChargePoints as real * SpeedOf(parameters)
      && 0.0 <= r.actualMaximumPowerDemand <= r.theoreticalMaximumPowerDemand
      && 0.0 <= r.concurrencyFactor <= 100.0
      && r.totalEnergyConsumed >= 0.0
      && |r.energyPerChargePoint| == parameters.numberOfChargePoints
      && (forall i :: 0 <= i < |r.energyPerChargePoint| ==> r.energyPerChargePoint[i].totalEnergyConsumed >= 0.0)
      && (TotalRunsOf(config) > 0 ==>
            forall i :: 0 <= i < |r.energyPerChargePoint| ==>
              r.energyPerChargePoint[i].maxChargeSpeed == SpeedOf(parameters))
  {
    var p := PlanOf(config, parameters);
    var runs := TotalRunsOf(config);
    var t := Runs(p, hourOf, RunsPerformed(runs), g);
    RunsReportBounds(p, hourOf, runs, g);
    Reported(config, parameters, hourOf, g, t, Report(p, runs, t));
  }

  /** The facts of `SimulateBounds` about the report of the runs of a plan. */
  lemma {:induction false} RunsReportBounds(p: Plan, hourOf: int -> int, runs: int, g: bv32)
    requires p.Valid() && runs != 0
    ensures var r := Report(p, runs, Runs(p, hourOf, RunsPerformed(runs), g));
      && r.theoreticalMaximumPowerDemand == p.points as real * p.speed
      && 0.0 <= r.actualMaximumPowerDemand <= r.theoreticalMaximumPowerDemand
      && 0.0 <= r.concurrencyFactor <= 100.0
      && r.totalEnergyConsumed >= 0.0
      && |r.energyPerChargePoint| == p.points
      && (forall i :: 0 <= i < |r.energyPerChargePoint| ==> r.energyPerChargePoint[i].totalEnergyConsumed >= 0.0)
      && (runs > 0 ==>
            forall i :: 0 <= i < |r.energyPerChargePoint| ==> r.energyPerChargePoint[i].maxChargeSpeed == p.speed)
  {
    var k := RunsPerformed(runs);
    RunsBounds(p, hourOf, k, g);
    var t := Runs(p, hourOf, k, g);
    ReportScalarBounds(p, runs, k, t);
    ReportTableBounds(p, runs, k, t);
  }

  /** The scalar facts of `SimulateBounds` about the report of any sums that obey the bounds of `k` runs. */
  lemma ReportScalarBounds(p: Plan, runs: int, k: nat, t: Totals)
    requires p.Valid() && runs != 0 && k == RunsPerformed(runs)
    requires 0.0 <= t.maxDemand <= k as real * p.Theoretical()
    requires 0.0 <= t.concurrency <= k as real
    requires t.energy >= 0.0
    requires k == 0 ==> t.energy == 0.0
    ensures var r := Report(p, runs, t);
      && r.theoreticalMaximumPowerDemand == p.points as real * p.speed
      && 0.0 <= r.actualMaximumPowerDemand <= r.theoreticalMaximumPowerDemand
      && 0.0 <= r.concurrencyFactor <= 100.0
      && r.totalEnergyConsumed >= 0.0
  {
    if runs > 0 {
      MeanBounds(t.maxDemand, runs, p.Theoretical());
      MeanBounds(t.concurrency, runs, 1.0);
      MeanBounds(t.energy, runs, t.energy);
    }
  }

  /** The per-point facts of `SimulateBounds` about the report of any sums that obey the bounds of `k` runs. */
  lemma ReportTableBounds(p: Plan, runs: int, k: nat, t: Totals)
    requires runs != 0 && k == RunsPerformed(runs) && |t.perPoint| == p.points
    requires forall i :: 0 <= i < p.points ==>
      t.perPoint[i].maxChargeSpeed == k as real * p.speed && t.perPoint[i].totalEnergyConsumed >= 0.0
    requires k == 0 ==> t.perPoint == ZeroEnergies(p.points)
    ensures var table := Report(p, runs, t).energyPerChargePoint;
      && |table| == p.points
      && (forall i :: 0 <= i < |table| ==> table[i].totalEnergyConsumed >= 0.0)
      && (runs > 0 ==> forall i :: 0 <= i < |table| ==> table[i].maxChargeSpeed == p.speed)
  {
    var table := Report(p, runs, t).energyPerChargePoint;
    if runs > 0 {
      forall i | 0 <= i < p.points
        ensures table[i].maxChargeSpeed == p.speed
        ensures table[i].totalEnergyConsumed >= 0.0
      {
        PointMean(t.perPoint[i], runs, p.speed);
      }
    }
  }

  /** A point's sums over `runs >= 1` runs, averaged: its speed, and an energy that is not negative. */
  lemma PointMean(e: PointEnergy, runs: int, speed: real)
    requires runs >= 1 && e.maxChargeSpeed == runs as real * speed && e.totalEnergyConsumed >= 0.0
    ensures e.maxChargeSpeed / runs as real == speed
    ensures e.totalEnergyConsumed / runs as real >= 0.0
  {
    MeanBounds(e.totalEnergyConsumed, runs, e.totalEnergyConsumed);
  }

  // ---------------------------------------------------------------------
  // The shared generator

  /** The draws ticks 1 to `k` of a run take: the turns of every point at every tick. */
  function TicksDraws(p: Plan, hourOf: int -> int, k: nat, start: Year): nat
    requires p.Valid() && AllValid(start.states, p.interval)
  {
    if k == 0 then 0
    else
      var prev := TicksFrom(p, hourOf, k - 1, start);
      TicksDraws(p, hourOf, k - 1, start) + Draws(|prev.states|, hourOf(k), p.multiplier.GetOr(100.0), prev.generator)
  }

  /** Tick `k == n + 1` of a run follows ticks 1 to `n` and adds its turns' draws. */
  lemma {:induction false} LastTick(p: Plan, hourOf: int -> int, k: nat, n: nat, start: Year)
    requires p.Valid() && AllValid(start.states, p.interval) && k == n + 1
    ensures TicksFrom(p, hourOf, k, start).maxDemand
      == Max(TicksFrom(p, hourOf, n, start).maxDemand, InstantaneousPower(TicksFrom(p, hourOf, k, start).states))
    ensures TicksFrom(p, hourOf, k, start).generator
      == Turns(|start.states|, hourOf(k), p.multiplier.GetOr(100.0), TicksFrom(p, hourOf, n, start).generator).1
    ensures TicksDraws(p, hourOf, k, start) == TicksDraws(p, hourOf, n, start)
      + Draws(|start.states|, hourOf(k), p.multiplier.GetOr(100.0), TicksFrom(p, hourOf, n, start).generator)
  {
  }

  /** Tick `k == n + 1` of a run is one tick from where ticks 1 to `n` leave it. */
  lemma {:induction false} NextTick(p: Plan, hourOf: int -> int, k: nat, n: nat, start: Year)
    requires p.Valid() && AllValid(start.states, p.interval) && k == n + 1
    ensures TicksFrom(p, hourOf, k, start) == Tick(p, hourOf(k), TicksFrom(p, hourOf, n, start))
  {
  }

  /** The ticks of a run advance the generator by exactly their draws. */
  lemma {:induction false} TicksAdvance(p: Plan, hourOf: int -> int, k: nat, start: Year)
    requires p.Valid() && AllValid(start.states, p.interval)
    ensures TicksFrom(p, hourOf, k, start).generator == Iterate(start.generator, TicksDraws(p, hourOf, k, start))
  {
    if k > 0 {
      var n := k - 1;
      TicksAdvance(p, hourOf, n, start);
      var prev := TicksFrom(p, hourOf, n, start);
      var m := p.multiplier.GetOr(100.0);
      TurnsAdvance(|prev.states|, hourOf(k), m, prev.generator);
      LastTick(p, hourOf, k, n, start);
      IterateChain(start.generator, TicksDraws(p, hourOf, n, start), prev.generator,
                   Draws(|prev.states|, hourOf(k), m, prev.generator), TicksFrom(p, hourOf, k, start).generator,
                   TicksDraws(p, hourOf, k, start));
    }
  }

  /** The draws of the first `k` runs from generator state `g`. */
  function RunsDraws(p: Plan, hourOf: int -> int, k: nat, g: bv32): nat
    requires p.Valid()
  {
    if k == 0 then 0
    else
      var prev := Runs(p, hourOf, k - 1, g);
      RunsDraws(p, hourOf, k - 1, g) + TicksDraws(p, hourOf, TicksPerYear(p.interval), YearStart(p, prev.generator))
  }

  /** Run `k == n + 1` adds one year, started from where the first `n` runs left the generator. */
  lemma {:induction false} LastRun(p: Plan, hourOf: int -> int, k: nat, n: nat, g: bv32)
    requires p.Valid() && k == n + 1
    ensures Runs(p, hourOf, k, g).energy
      == Runs(p, hourOf, n, g).energy + TotalEnergy(YearRun(p, hourOf, Runs(p, hourOf, n, g).generator).states)
    ensures Runs(p, hourOf, k, g).maxDemand
      == Runs(p, hourOf, n, g).maxDemand + YearRun(p, hourOf, Runs(p, hourOf, n, g).generator).maxDemand
    ensures Runs(p, hourOf, k, g).concurrency
      == Runs(p, hourOf, n, g).concurrency + YearRun(p, hourOf, Runs(p, hourOf, n, g).generator).maxDemand / p.Theoretical()
    ensures Runs(p, hourOf, k, g).perPoint
      == AddEnergies(Runs(p, hourOf, n, g).perPoint, EnergyPerPoint(YearRun(p, hourOf, Runs(p, hourOf, n, g).generator).states))
    ensures Runs(p, hourOf, k, g).generator == YearRun(p, hourOf, Runs(p, hourOf, n, g).generator).generator
  {
  }

  /** Run `k == n + 1` adds one year to the first `n` runs, started from where they left the generator. */
  lemma {:induction false} NextRun(p: Plan, hourOf: int -> int, k: nat, n: nat, g: bv32)
    requires p.Valid() && k == n + 1
    ensures Runs(p, hourOf, k, g) == AddYear(p, Runs(p, hourOf, n, g), YearRun(p, hourOf, Runs(p, hourOf, n, g).generator))
  {
  }

  /** Run `k == n + 1` adds the draws of one year, started from where the first `n` runs left the generator. */
  lemma {:induction false} LastRunDraws(p: Plan, hourOf: int -> int, k: nat, n: nat, g: bv32)
    requires p.Valid() && k == n + 1
    ensures Runs(p, hourOf, k, g).generator == YearRun(p, hourOf, Runs(p, hourOf, n, g).generator).generator
    ensures RunsDraws(p, hourOf, k, g) == RunsDraws(p, hourOf, n, g)
      + TicksDraws(p, hourOf, TicksPerYear(p.interval), YearStart(p, Runs(p, hourOf, n, g).generator))
  {
  }

  /**
   * The generator is shared and never reseeded: `k` runs leave it exactly
   * as many steps further along its one stream as they take draws.
   */
  lemma {:induction false} RunsAdvance(p: Plan, hourOf: int -> int, k: nat, g: bv32)
    requires p.Valid()
    ensures Runs(p, hourOf, k, g).generator == Iterate(g, RunsDraws(p, hourOf, k, g))
  {
    if k > 0 {
      var n := k - 1;
      RunsAdvance(p, hourOf, n, g);
      var prev := Runs(p, hourOf, n, g);
      var start := YearStart(p, prev.generator);
      TicksAdvance(p, hourOf, TicksPerYear(p.interval), start);
      LastRunDraws(p, hourOf, k, n, g);
      IterateChain(g, RunsDraws(p, hourOf, n, g), prev.generator,
                   TicksDraws(p, hourOf, TicksPerYear(p.interval), start), Runs(p, hourOf, k, g).generator,
                   RunsDraws(p, hourOf, k, g));
    }
  }

  // ---------------------------------------------------------------------
  // The simulator

  class Simulator {
    const options: SimulatorConfig
    const randomNumberGenerator: XORShiftGenerator

    /** The constructor: the configuration has passed the interval check; the generator is seeded once. */
    constructor (options: SimulatorConfig)
      requires !IntervalRejected(options)
      ensures this.options == options
      ensures fresh(randomNumberGenerator)
      ensures randomNumberGenerator.state == Word(SeedOf(options))
    {
      this.options := options;
      randomNumberGenerator := new XORShiftGenerator(SeedOf(options));
    }

    /** `new Simulator(options)`: the error thrown for a rejected interval, or the new simulator. */
    static method Create(options: SimulatorConfig) returns (r: Result<Simulator>)
      ensures r.Failure? <==> IntervalRejected(options)
      ensures r.Failure? ==> r.error == IntervalError
      ensures r.Success? ==>
        && fresh(r.value) && fresh(r.value.randomNumberGenerator)
        && r.value.options == options
        && r.value.randomNumberGenerator.state == Word(SeedOf(options))
    {
      if IntervalRejected(options) {
        return Failure(IntervalError);
      }
      var simulator := new Simulator(options);
      return Success(simulator);
    }

    /**
     * `run`: the result and the generator's new state are those of
     * `Simulate` from the generator's state at the call, so the
     * properties proved about `Simulate` hold of every call.
     */
    method Run(parameters: SimulationParameters, hourOf: int -> int) returns (result: SimulationResult)
      requires !IntervalRejected(options) && options.interval != Some(0)
      requires parameters.numberOfChargePoints >= 1
      requires SpeedOf(parameters) > 0.0 && ConsumptionOf(parameters) >= 0.0
      modifies randomNumberGenerator
      ensures PlanOf(options, parameters).Valid()
      ensures (result, randomNumberGenerator.state)
        == Simulate(options, parameters, hourOf, old(randomNumberGenerator.state))
    {
      IntervalAccepted(options);
      var interval := IntervalOf(options);
      var totalRuns := TotalRunsOf(options);
      var numberOfChargePoints := parameters.numberOfChargePoints;
      var chargePointChargeSpeed := SpeedOf(parameters);
      var consumptionOfCars := ConsumptionOf(parameters);
      var plan := Plan(numberOfChargePoints, chargePointChargeSpeed, consumptionOfCars, interval,
                       parameters.arrivalProbabilityMultiplier);
      ghost var g0 := randomNumberGenerator.state;

      var theoreticalMaximumPowerDemand := numberOfChargePoints as real * chargePointChargeSpeed;
      var energyPerChargePointAggregate := new PointEnergy[numberOfChargePoints](_ => PointEnergy(0.0, 0.0));
      assert energyPerChargePointAggregate[..] == ZeroEnergies(numberOfChargePoints);
      var totalEnergyConsumedSum, actualMaximumPowerDemandSum, concurrencyFactorSum :=
        SimulateRuns(plan, hourOf, randomNumberGenerator, theoreticalMaximumPowerDemand, energyPerChargePointAggregate,
                     totalRuns);

      result := SimulationResult(
        totalEnergyConsumedSum / totalRuns as real,
        theoreticalMaximumPowerDemand,
        actualMaximumPowerDemandSum / totalRuns as real,
        (concurrencyFactorSum / totalRuns as real) * 100.0,
        Averages(energyPerChargePointAggregate[..], totalRuns));
      assert plan == PlanOf(options, parameters);
      ghost var t := Totals(totalEnergyConsumedSum, actualMaximumPowerDemandSum, concurrencyFactorSum,
                            energyPerChargePointAggregate[..], randomNumberGenerator.state);
      assert result == Report(plan, totalRuns, t);
      Reported(options, parameters, hourOf, g0, t, result);
    }
  }

  /**
   * The loop of `run` over `totalRuns` runs: the sums, the per-point table
   * and the generator end as `Runs` says of that many runs.
   */
  method SimulateRuns(plan: Plan, hourOf: int -> int, generator: XORShiftGenerator, theoreticalMaximumPowerDemand: real,
                      energyPerChargePointAggregate: array<PointEnergy>, totalRuns: int)
    returns (totalEnergyConsumedSum: real, actualMaximumPowerDemandSum: real, concurrencyFactorSum: real)
    requires plan.Valid() && theoreticalMaximumPowerDemand == plan.Theoretical()
    requires energyPerChargePointAggregate[..] == ZeroEnergies(plan.points)
    modifies generator, energyPerChargePointAggregate
    ensures Runs(plan, hourOf, RunsPerformed(totalRuns), old(generator.state))
      == Totals(totalEnergyConsumedSum, actualMaximumPowerDemandSum, concurrencyFactorSum,
                energyPerChargePointAggregate[..], generator.state)
  {
    totalEnergyConsumedSum := 0.0;
    actualMaximumPowerDemandSum := 0.0;
    concurrencyFactorSum := 0.0;
    ghost var g0 := generator.state;
    var run := 0;
    while run < totalRuns
      invariant 0 <= run <= RunsPerformed(totalRuns)
      invariant energyPerChargePointAggregate.Length == plan.points
      invariant Runs(plan, hourOf, run, g0)
        == Totals(totalEnergyConsumedSum, actualMaximumPowerDemandSum, concurrencyFactorSum,
                  energyPerChargePointAggregate[..], generator.state)
    {
      totalEnergyConsumedSum, actualMaximumPowerDemandSum, concurrencyFactorSum :=
        SimulateRun(plan, hourOf, generator, theoreticalMaximumPowerDemand, energyPerChargePointAggregate,
                    totalEnergyConsumedSum, actualMaximumPowerDemandSum, concurrencyFactorSum);
      NextRun(plan, hourOf, run + 1, run, g0);
      run := run + 1;
    }
  }

  /**
   * The body of the loop of `run` for run `run + 1`: a new lot on the shared
   * generator, a year of ticks, then the year's results join the sums and
   * the per-point table, taking the sums from those of `run` runs to those
   * of `run + 1` runs.
   */
  method SimulateRun(plan: Plan, hourOf: int -> int, generator: XORShiftGenerator, theoreticalMaximumPowerDemand: real,
                     energyPerChargePointAggregate: array<PointEnergy>,
                     totalEnergyConsumedSum: real, actualMaximumPowerDemandSum: real, concurrencyFactorSum: real)
    returns (energySum: real, maximumSum: real, concurrencySum: real)
    requires plan.Valid() && theoreticalMaximumPowerDemand == plan.Theoretical()
    requires energyPerChargePointAggregate.Length == plan.points
    modifies generator, energyPerChargePointAggregate
    ensures Totals(energySum, maximumSum, concurrencySum, energyPerChargePointAggregate[..], generator.state)
      == AddYear(plan, Totals(totalEnergyConsumedSum, actualMaximumPowerDemandSum, concurrencyFactorSum,
                              old(energyPerChargePointAggregate[..]), old(generator.state)),
                 YearRun(plan, hourOf, old(generator.state)))
  {
    ghost var prev := Totals(totalEnergyConsumedSum, actualMaximumPowerDemandSum, concurrencyFactorSum,
                             energyPerChargePointAggregate[..], generator.state);
    var parkingLot, actualMaximumPowerDemand := RunYear(plan, hourOf, generator);
    ghost var year := Year(parkingLot.States(), generator.state, actualMaximumPowerDemand);
    var energyPerChargePoint := parkingLot.EnergyPerChargePoint();
    Accumulate(energyPerChargePointAggregate, energyPerChargePoint);
    var concurrencyFactor := actualMaximumPowerDemand / theoreticalMaximumPowerDemand;
    energySum := totalEnergyConsumedSum + parkingLot.TotalEnergyConsumed();
    maximumSum := actualMaximumPowerDemandSum + actualMaximumPowerDemand;
    concurrencySum := concurrencyFactorSum + concurrencyFactor;
    YearJoins(plan, prev, year, energySum, maximumSum, concurrencySum, energyPerChargePointAggregate[..], generator.state);
  }

  /** The sums `AddYear` gives, field by field. */
  lemma YearJoins(p: Plan, prev: Totals, year: Year, energy: real, maximum: real, concurrency: real,
                  perPoint: seq<PointEnergy>, g: bv32)
    requires p.Valid() && |prev.perPoint| == |year.states|
    requires energy == prev.energy + TotalEnergy(year.states)
    requires maximum == prev.maxDemand + year.maxDemand
    requires concurrency == prev.concurrency + year.maxDemand / p.Theoretical()
    requires perPoint == AddEnergies(prev.perPoint, EnergyPerPoint(year.states))
    requires g == year.generator
    ensures Totals(energy, maximum, concurrency, perPoint, g) == AddYear(p, prev, year)
  {
  }

  /** The lot and the ticks of one run: the lot and the generator end as `YearRun` says. */
  method RunYear(plan: Plan, hourOf: int -> int, generator: XORShiftGenerator)
    returns (parkingLot: ParkingLot, actualMaximumPowerDemand: real)
    requires plan.Valid()
    modifies generator
    ensures fresh(parkingLot) && parkingLot.Valid() && parkingLot.generator == generator
    ensures Year(parkingLot.States(), generator.state, actualMaximumPowerDemand)
      == YearRun(plan, hourOf, old(generator.state))
  {
    parkingLot := NewParkingLot(plan, generator);
    ghost var start := YearStart(plan, old(generator.state));
    assert Year(parkingLot.States(), generator.state, -1.0) == start;
    actualMaximumPowerDemand := SimulateYear(parkingLot, plan, hourOf, TicksPerYear(plan.interval), start);
  }

  /** The lot of one run: a new lot on the shared generator with `points` new idle charge points. */
  method NewParkingLot(plan: Plan, generator: XORShiftGenerator) returns (lot: ParkingLot)
    requires plan.Valid()
    ensures fresh(lot) && lot.Valid()
    ensures lot.generator == generator
    ensures lot.consumptionOfCars == plan.consumption && lot.interval == plan.interval
    ensures lot.States() == Idles(plan.points, plan.speed)
    ensures forall i :: 0 <= i < |lot.chargePoints| ==> fresh(lot.chargePoints[i])
  {
    lot := new ParkingLot(plan.consumption, plan.interval, generator);
    var i := 0;
    while i < plan.points
      invariant 0 <= i <= plan.points
      invariant fresh(lot) && lot.Valid()
      invariant lot.States() == Idles(i, plan.speed)
      invariant forall i :: 0 <= i < |lot.chargePoints| ==> fresh(lot.chargePoints[i])
    {
      var chargePoint := new ChargePoint(plan.speed);
      lot.AddChargePoint(chargePoint);
      IdlesNext(i, plan.speed);
      i := i + 1;
    }
  }

  /**
   * The ticks of one run: the result is the run's maximum demand, and the
   * lot and the generator end as `TicksFrom` says.
   */
  method SimulateYear(lot: ParkingLot, plan: Plan, hourOf: int -> int, ticks: nat, ghost start: Year)
    returns (actualMaximumPowerDemand: real)
    requires plan.Valid() && lot.Shape() && AllValid(start.states, plan.interval)
    requires lot.interval == plan.interval && lot.consumptionOfCars == plan.consumption
    requires start == Year(lot.States(), lot.generator.state, -1.0)
    modifies lot.chargePoints, lot.generator
    ensures lot.Shape()
    ensures Year(lot.States(), lot.generator.state, actualMaximumPowerDemand)
      == TicksFrom(plan, hourOf, ticks, start)
  {
    actualMaximumPowerDemand := -1.0;
    var tick := 1;
    while tick <= ticks
      invariant 1 <= tick <= ticks + 1
      invariant lot.Shape()
      invariant AtTick(plan, hourOf, tick - 1, start, Year(lot.States(), lot.generator.state, actualMaximumPowerDemand))
    {
      actualMaximumPowerDemand := SimulateTick(lot, plan, hourOf, tick, actualMaximumPowerDemand, start);
      tick := tick + 1;
    }
  }

  /**
   * The body of the loop of a run for tick `tick`: the two passes over the
   * lot in the tick's hour, then the demand joins the maximum, taking the
   * run from the state of `tick - 1` ticks to that of `tick` ticks.
   */
  method SimulateTick(lot: ParkingLot, plan: Plan, hourOf: int -> int, tick: nat, actualMaximumPowerDemand: real,
                      ghost start: Year)
    returns (newMaximum: real)
    requires plan.Valid() && lot.Shape() && AllValid(start.states, plan.interval) && tick >= 1
    requires lot.interval == plan.interval && lot.consumptionOfCars == plan.consumption
    requires AtTick(plan, hourOf, tick - 1, start, Year(lot.States(), lot.generator.state, actualMaximumPowerDemand))
    modifies lot.chargePoints, lot.generator
    ensures lot.Shape()
    ensures AtTick(plan, hourOf, tick, start, Year(lot.States(), lot.generator.state, newMaximum))
  {
    NextTick(plan, hourOf, tick, tick - 1, start);
    var hourOfDay := hourOf(tick);
    lot.SimulateEvArrivalsAtChargePoints(hourOfDay, plan.multiplier);
    lot.EvictEvsIfChargingComplete();
    var powerDemand := lot.InstantaneousPowerDemand();
    newMaximum := Max(actualMaximumPowerDemand, powerDemand);
  }

  /** The `forEach` of a run: each point's speed and energy are added to its entry of the table. */
  method Accumulate(aggregate: array<PointEnergy>, energyPerChargePoint: seq<PointEnergy>)
    requires aggregate.Length == |energyPerChargePoint|
    modifies aggregate
    ensures aggregate[..] == AddEnergies(old(aggregate[..]), energyPerChargePoint)
  {
    var index := 0;
    while index < |energyPerChargePoint|
      invariant 0 <= index <= |energyPerChargePoint|
      invariant forall j :: 0 <= j < index ==>
        aggregate[j] == PointEnergy(old(aggregate[j]).maxChargeSpeed + energyPerChargePoint[j].maxChargeSpeed,
                                    old(aggregate[j]).totalEnergyConsumed + energyPerChargePoint[j].totalEnergyConsumed)
      invariant forall j :: index <= j < aggregate.Length ==> aggregate[j] == old(aggregate[j])
    {
      var detail := energyPerChargePoint[index];
      aggregate[index] := PointEnergy(aggregate[index].maxChargeSpeed + detail.maxChargeSpeed,
                                      aggregate[index].totalEnergyConsumed + detail.totalEnergyConsumed);
      index := index + 1;
    }
  }
}
