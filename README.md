# ev-sim simulation engine in Dafny

This project models the simulation engine of ev-sim (`packages/simulation-lib`). The engine is a seeded Monte Carlo simulation of EV charging at a parking lot over one non-leap year. It estimates the energy consumed, the peak power demand and the concurrency factor: the peak as a percentage of the theoretical maximum. The model has five modules, one per source class:

- `Xorshift` (`xorshift.dfy`): the `XORShiftGenerator` class, whose state is a `bv32`. The step is modelled as JavaScript evaluates it on int32 values. In particular `x >> 17` is the sign-propagating shift, written out over Dafny's logical `>>`. Functions give the state after `k` calls (`Iterate`) and the values returned (`Outputs`).
- `Vehicles` (`vehicles.dfy`): the immutable `EV` as a datatype, with `EnergyRequired` and `ChargeDurationInIntervals`. The charge time is floored to whole hours first, then converted to intervals.
- `ChargePoints` (`charge_points.dfy`): the `ChargePoint` class. Its method `PlugVehicle` is proved equal to the pure transition `Plug`, and `UnPlugVehicle` to `Unplug`. Both work on a `PointState` value. The invariant `Valid` keeps the countdown between 0 and the duration of the plugged vehicle, so the division in `unPlugVehicle` is well defined. Lemmas over sequences of plug/unplug calls cover FIFO order and exact energy delivery.
- `ParkingLots` (`parking_lots.dfy`):
  - the arrival table (×100) and the scaled draw `floor(u * 10000 / 0xFFFFFFFF)`;
  - `WillArrive`, and the demand sampler as a threshold chain proved equal to a band table;
  - each point's turn of draws and the arrival and eviction passes, as functions of the points' states and the generator state;
  - the aggregates;
  - the `ParkingLot` class, whose loops are proved to perform those passes in place, advancing the shared generator.
- `Simulation` (`simulation.dfy`):
  - the interval check and the defaults;
  - a tick, a year of ticks (`TicksFrom`), the runs (`Runs`) with a generator shared across runs, and the averaged report (`Simulate`);
  - bounds on the report: mean peak between 0 and `n * speed`, concurrency factor between 0 and 100, non-negative energies, and one table entry per point;
  - draw accounting: `k` runs advance the one generator stream by exactly their draws;
  - the `Simulator` class, whose `Run` uses the nested `for` loops of the source and is proved to return `Simulate` of the generator state at the call.

The hour of the day of each tick comes from a calendar library in the configured time zone. It is a parameter `hourOf: int -> int` of `Run`; `UtcHourOfDay` is that function for UTC.

Where the code differs from the textbook xorshift32 its header cites (xor-shift-generator.ts:3), the model follows the code:
- The right shift of the generator step propagates the sign; a textbook xorshift32 uses a logical shift. As a result the step is not injective (`StepNotInjective`).
- A value returned by `next()` can only be 1 for the all-ones state, which no step produces (`StepNeverAllOnes`). So the values returned are in [0, 1), the half-open range `getRandomNumber` documents (parking-lot.ts:50-53).

An interval of `0` is not rejected by the simulator's constructor (`IntervalRejected`), because `0` is falsy in the check at simulator.ts:118; the model accepts it too.

## Model

| member | source | states |
|---|---|---|
| Xorshift.Value | packages/simulation-lib/xor-shift-generator.ts:30 | the value of a state lies in [0, 1]; it is 1 exactly for the all-ones state and 0 exactly for state 0 |
| Xorshift.Outputs | packages/simulation-lib/xor-shift-generator.ts:24-31 | the first `k` values from a state are, in call order, the values of the states after 1..k steps: a function of the starting state alone, so equal seeds give equal streams |
| Xorshift.XORShiftGenerator.constructor | packages/simulation-lib/xor-shift-generator.ts:15-17 | the state is the 32-bit pattern of the seed |
| Xorshift.XORShiftGenerator.Next | packages/simulation-lib/xor-shift-generator.ts:24-31 | the new state is the old one after XOR with `<< 13`, then with the sign-propagating `>> 17`, then with `<< 5`; the value returned is that of the new state, and it is below 1 |
| Xorshift.ZeroIsFixedPoint | packages/simulation-lib/xor-shift-generator.ts:25-30 | from state 0 every call leaves the state at 0 and returns 0 |
| Xorshift.StepNotInjective | packages/simulation-lib/xor-shift-generator.ts:27 | the nonzero state 0xFC001FFF steps to 0, as 0 does |
| Xorshift.StepNeverAllOnes | packages/simulation-lib/xor-shift-generator.ts:25-30 | no step yields 0xFFFFFFFF, so `next()` never returns 1 |
| Xorshift.LeftFiveAllOnes | packages/simulation-lib/xor-shift-generator.ts:28 | the last XOR yields all ones only from 0xC1F07C1F |
| Xorshift.RightArithNeverHits | packages/simulation-lib/xor-shift-generator.ts:27 | the sign-propagating XOR never yields 0xC1F07C1F |
| Xorshift.IterateAdd | packages/simulation-lib/xor-shift-generator.ts:24-31 | `j` steps then `k` steps are `j + k` steps |
| Xorshift.IterateChain | packages/simulation-lib/xor-shift-generator.ts:24-31 | `k` steps to a state and `d` more from it make `k + d` steps |
| Xorshift.OutputsConcatenate | packages/simulation-lib/xor-shift-generator.ts:24-31 | the values of `j + k` calls are those of the first `j` calls followed by those of `k` calls from where they stop |
| Vehicles.EnergyRequired | packages/simulation-lib/ev.ts:34-39 | the energy required is not negative when the demand and the consumption are not |
| Vehicles.ChargeDurationInIntervals | packages/simulation-lib/ev.ts:48-56 | the duration is positive exactly when the energy reaches the speed, 0 exactly when the energy is below the speed and not negative, and never negative for a non-negative energy |
| Vehicles.ChargeDurationIsWholeHours | packages/simulation-lib/ev.ts:51-55 | duration times interval is the floored charge time in hours times 60, a whole number `h` of hours with `h * speed <= energy < (h + 1) * speed` |
| ChargePoints.Plug | packages/simulation-lib/charge-point.ts:70-77 | plugging keeps the invariant, always leaves the point occupied, keeps speed and energy; an idle point starts charging the vehicle with its full duration and an empty queue; at an occupied point the vehicle and countdown stay and the newcomer goes to the queue's tail |
| ChargePoints.EnergyPerInterval | packages/simulation-lib/charge-point.ts:91 | the energy of one interval is not negative |
| ChargePoints.EnergyPerIntervalSpreads | packages/simulation-lib/charge-point.ts:86-93 | `d` deliveries of one interval's energy add up to exactly the energy required, and one delivery never exceeds it |
| ChargePoints.Unplug | packages/simulation-lib/charge-point.ts:83-103 | unplugging keeps the invariant and the speed, never lowers the energy, and leaves an idle point unchanged; with a positive countdown it adds one interval's energy and counts down; at 0 it hands the point to the queue's head with that vehicle's full duration, or, with an empty queue, leaves the point idle, the energy unchanged in both cases |
| ChargePoints.ApplyOne | packages/simulation-lib/charge-point.ts:70-103 | any plug or unplug call keeps the invariant |
| ChargePoints.Apply | packages/simulation-lib/charge-point.ts:70-103 | any sequence of calls keeps the invariant and the speed and never lowers the energy |
| ChargePoints.ChargingProgress | packages/simulation-lib/charge-point.ts:70-93 | while a vehicle has `m` intervals left, `k <= m` unplugs keep it plugged, count down by `k`, add `k` intervals' energy, and queue the arrivals behind the earlier ones in arrival order |
| ChargePoints.ChargingOneEvent | packages/simulation-lib/charge-point.ts:70-93 | with intervals left, one unplug charges one interval and one plug queues the newcomer at the tail |
| ChargePoints.SessionDeliversEnergyRequired | packages/simulation-lib/charge-point.ts:70-103 | a vehicle of duration `d` plugged into an idle point gets exactly its energy required over the next `d` unplugs (nothing if `d` is 0); the next unplug hands the point to the first vehicle that arrived meanwhile, or leaves it idle |
| ChargePoints.ChargePoint.constructor | packages/simulation-lib/charge-point.ts:10-39 | a new point has the given speed, no vehicle, countdown 0, an empty queue and no energy |
| ChargePoints.ChargePoint.IsOccupied | packages/simulation-lib/charge-point.ts:53-55 | occupied exactly when a vehicle is plugged in |
| ChargePoints.ChargePoint.PlugVehicle | packages/simulation-lib/charge-point.ts:70-77 | the new fields are `Plug` of the old ones; idle: the vehicle is plugged with its full duration, queue and energy unchanged; occupied: the vehicle goes to the queue's tail, nothing else changes |
| ChargePoints.ChargePoint.UnPlugVehicle | packages/simulation-lib/charge-point.ts:83-103 | the new fields are `Unplug` of the old ones; idle: nothing changes; countdown positive: one interval's energy is added and the countdown drops by 1; countdown 0: the queue's head is plugged with its full duration, or the point falls idle |
| ParkingLots.ScaledDraw | packages/simulation-lib/parking-lot.ts:79 | the scaled draw lies in 0..10000 |
| ParkingLots.ScaledDrawExtremes | packages/simulation-lib/parking-lot.ts:79 | the scaled draw is 10000 exactly for the all-ones state and 0 exactly below 1/10000 of the range |
| ParkingLots.ScaledDrawIsFloor | packages/simulation-lib/parking-lot.ts:55-57 | the floor of `getRandomNumber(0, 10000)`, that is of `next()`'s value times 10000, is the integer scaled draw |
| ParkingLots.ClampMultiplier | packages/simulation-lib/parking-lot.ts:72 | the clamped multiplier lies in [20, 200], equals the multiplier inside that range, and is the nearer end outside it |
| ParkingLots.ArrivalThreshold | packages/simulation-lib/parking-lot.ts:72-77 | the threshold is the hour's base × the clamped multiplier / 100, so a multiplier above 200 acts as 200 and one below 20 as 20; it lies between 0.2 and 2 times the base |
| ParkingLots.WillArrive | packages/simulation-lib/parking-lot.ts:67-86 | an hour outside 0..23 gives no arrival and no draw; otherwise one step is taken, and an EV arrives exactly when the scaled draw is below the threshold |
| ParkingLots.ChargingDemandInKm | packages/simulation-lib/parking-lot.ts:93-147 | the demand lies in 0..300 km |
| ParkingLots.ChargingDemandMatchesTable | packages/simulation-lib/parking-lot.ts:96-146 | the threshold chain equals the lookup in the band table; the demand is one of the listed values; a draw below 294 gives 300 km and every draw from 9997 gives 0 km |
| ParkingLots.Turn | packages/simulation-lib/parking-lot.ts:171-172 | an arrival drawn in one point's turn demands 0..300 km |
| ParkingLots.Turns | packages/simulation-lib/parking-lot.ts:169-177 | the turns of `n` points give one arrival or none per point, each with a demand in 0..300 km |
| ParkingLots.TurnsLast | packages/simulation-lib/parking-lot.ts:169-177 | the same for the last point after the turns of the points before it |
| ParkingLots.ArriveAt | packages/simulation-lib/parking-lot.ts:172-174 | a point's turn keeps its invariant, speed and energy; without an arrival it changes nothing, and with one the point is occupied |
| ParkingLots.ArrivalPass | packages/simulation-lib/parking-lot.ts:169-177 | the arrival pass keeps the number of points and every point's invariant |
| ParkingLots.ArrivalPassLast | packages/simulation-lib/parking-lot.ts:169-177 | the same for the pass over all points but the last, then the last |
| ParkingLots.ArrivalPassAt | packages/simulation-lib/parking-lot.ts:169-177 | in the arrival pass, point `i` receives its own arrival and no other |
| ParkingLots.TurnAdvances | packages/simulation-lib/parking-lot.ts:171-172 | one turn advances the generator by exactly its draws: one or two for an hour of the day, none otherwise |
| ParkingLots.TurnsAdvance | packages/simulation-lib/parking-lot.ts:169-177 | the turns of `n` points, taken in list order, advance the generator by exactly their draws |
| ParkingLots.NextTurns | packages/simulation-lib/parking-lot.ts:169-177 | the turns of `n + 1` points are those of the first `n`, then one more turn from where they leave the generator |
| ParkingLots.LastTurn | packages/simulation-lib/parking-lot.ts:169-177 | the last turn starts where the others end and adds its own draws |
| ParkingLots.AdvanceByTurn | packages/simulation-lib/parking-lot.ts:171-172 | a turn taken `k` steps into a stream ends `k` plus its draws steps into it |
| ParkingLots.DrawsBounds | packages/simulation-lib/parking-lot.ts:169-177 | the turns of `n` points take between `n` and `2n` draws for an hour of the day, and none otherwise |
| ParkingLots.TurnsInvalidHour | packages/simulation-lib/parking-lot.ts:67-86 | for an hour outside 0..23, no point gets an arrival and the generator is not advanced |
| ParkingLots.NoArrivalsChangeNothing | packages/simulation-lib/parking-lot.ts:170-176 | a pass without arrivals leaves every point as it was |
| ParkingLots.EvictionPass | packages/simulation-lib/parking-lot.ts:182-186 | the eviction pass keeps the number of points and every point's invariant |
| ParkingLots.EvictionPassLast | packages/simulation-lib/parking-lot.ts:182-186 | the same for the pass over all points but the last, then the last |
| ParkingLots.EvictionPassAt | packages/simulation-lib/parking-lot.ts:182-186 | in the eviction pass every point unplugs exactly once |
| ParkingLots.OccupiedPoints | packages/simulation-lib/parking-lot.ts:214-215 | there are no more occupied points than points |
| ParkingLots.InstantaneousPowerBounds | packages/simulation-lib/parking-lot.ts:203-218 | for non-negative speeds the instantaneous power lies between 0 and the theoretical maximum; it is 0 with no point occupied and reaches the maximum with all points occupied |
| ParkingLots.TotalEnergyNonNegative | packages/simulation-lib/parking-lot.ts:193-197 | non-negative energy counters add up to a non-negative total |
| ParkingLots.ValidEnergyNonNegative | packages/simulation-lib/parking-lot.ts:193-197 | in a lot of valid points the total energy is not negative |
| ParkingLots.ValidSpeedsPositive | packages/simulation-lib/parking-lot.ts:203-207 | in a lot of valid points the theoretical maximum is not negative, and it is positive when the lot has a point |
| ParkingLots.ValidPowerBounds | packages/simulation-lib/parking-lot.ts:203-218 | in a lot of valid points the instantaneous power lies between 0 and the theoretical maximum |
| ParkingLots.EnergyPerPoint | packages/simulation-lib/parking-lot.ts:225-230 | one entry per point |
| ParkingLots.EnergyPerPointAt | packages/simulation-lib/parking-lot.ts:225-230 | entry `i` holds the speed and energy of point `i` |
| ParkingLots.ArrivalPassOfPoints | packages/simulation-lib/parking-lot.ts:170-176 | charge points that each received their own arrival hold the arrival pass of the old states |
| ParkingLots.EvictionPassOfPoints | packages/simulation-lib/parking-lot.ts:183-185 | charge points that each unplugged once hold the eviction pass of the old states |
| ParkingLots.ParkingLot.constructor | packages/simulation-lib/parking-lot.ts:43-47 | a new lot has no points, the given consumption, interval and generator, and satisfies the lot invariant |
| ParkingLots.ParkingLot.AddChargePoint | packages/simulation-lib/parking-lot.ts:160-162 | the point is appended at the end of the list, and the lot invariant is kept |
| ParkingLots.ParkingLot.GetRandomNumber | packages/simulation-lib/parking-lot.ts:55-57 | one generator step; the result is the new value scaled to the range, and lies in [min, max) for a non-empty range |
| ParkingLots.ParkingLot.EvWillArrive | packages/simulation-lib/parking-lot.ts:67-86 | the decision and the generator's new state are `WillArrive` of the old state |
| ParkingLots.ParkingLot.GetRandomChargingDemandInKm | packages/simulation-lib/parking-lot.ts:93-147 | exactly one generator step; the demand is the sampler's value for the new scaled draw, one of the listed demands |
| ParkingLots.ParkingLot.SimulateEvArrivalAt | packages/simulation-lib/parking-lot.ts:171-175 | one point's turn: the generator moves as `Turn` says and the point receives that turn's arrival with the lot's consumption |
| ParkingLots.ParkingLot.ArrivalStep | packages/simulation-lib/parking-lot.ts:170-176 | one loop iteration: point `i` takes the next turn, the points before it keep their arrivals, the points after it are untouched |
| ParkingLots.ParkingLot.SimulateEvArrivalsAtChargePoints | packages/simulation-lib/parking-lot.ts:169-177 | the points, in list order, receive the arrivals of as many turns from the old generator state; the generator ends where those turns leave it; the lot invariant holds |
| ParkingLots.ParkingLot.EvictEvsIfChargingComplete | packages/simulation-lib/parking-lot.ts:182-186 | every point unplugs once, in list order, without touching the generator; the lot invariant holds |
| ParkingLots.ParkingLot.TotalEnergyConsumed | packages/simulation-lib/parking-lot.ts:193-197 | the sum of the points' energies, not negative in a valid lot |
| ParkingLots.ParkingLot.TheoreticalMaxPowerDemand | packages/simulation-lib/parking-lot.ts:203-207 | the sum of the points' speeds, not negative in a valid lot and positive when it has a point |
| ParkingLots.ParkingLot.InstantaneousPowerDemand | packages/simulation-lib/parking-lot.ts:213-218 | the speeds of the occupied points, between 0 and the theoretical maximum in a valid lot |
| ParkingLots.ParkingLot.EnergyPerChargePoint | packages/simulation-lib/parking-lot.ts:225-230 | one entry per point, in list order, with that point's speed and energy |
| ParkingLots.ScaleToRangeBounds | packages/simulation-lib/parking-lot.ts:55-57 | a value in [0, 1) scaled to a non-empty range lands in it, upper end excluded |
| Simulation.IntervalAccepted | packages/simulation-lib/simulator.ts:118-120 | the constructor accepts exactly an omitted interval, 0, and the twelve divisors of 60; an accepted nonzero interval is a positive divisor of 60 |
| Simulation.DivisorsOfSixty | packages/simulation-lib/simulator.ts:118 | the positive divisors of 60 are exactly 1, 2, 3, 4, 5, 6, 10, 12, 15, 20, 30 and 60 |
| Simulation.IntervalExamples | packages/simulation-lib/simulator.ts:118-120 | interval 7 is rejected; 15, 0 and an omitted interval are not |
| Simulation.TotalRunsOf | packages/simulation-lib/simulator.ts:132 | the run count is never 0 |
| Simulation.Defaults | packages/simulation-lib/simulator.ts:122-137 | seed 1337, interval 15, one run (also for `totalRuns` 0), time zone UTC, speed 11, consumption 18; a given value is used as it is |
| Simulation.TicksPerYearWhole | packages/simulation-lib/simulator.ts:140 | for a divisor of 60 the ticks of the year times the interval are exactly 525600 minutes, at least 8760 ticks |
| Simulation.UtcHourFacts | packages/simulation-lib/simulator.ts:161-172 | in UTC from 2025-01-01 00:00, a tick `t >= 0` falls in an hour 0..23, the hour of its minute of the day (`t * interval % 1440`), and the hour repeats `1440 / interval` ticks later |
| Simulation.UtcHoursAreHoursOfDay | packages/simulation-lib/simulator.ts:161-172 | in UTC every tick's hour lies in 0..23, so each point's turn takes one or two draws |
| Simulation.Plan.Theoretical | packages/simulation-lib/simulator.ts:145 | the theoretical maximum `n * speed` is positive for a valid plan |
| Simulation.Max | packages/simulation-lib/simulator.ts:176 | the maximum is one of the two arguments and at least both |
| Simulation.IdlesFresh | packages/simulation-lib/simulator.ts:156-159 | every point of a fresh lot has the given speed and is valid for a positive speed and an accepted interval; no point is occupied, so the lot draws no power, and it has consumed no energy |
| Simulation.IdlesNext | packages/simulation-lib/simulator.ts:157-159 | adding one more idle point appends it at the end |
| Simulation.Tick | packages/simulation-lib/simulator.ts:168-177 | a tick keeps the number of points, their invariant and their speed; the new maximum is the old one joined with the demand after the arrival pass and then the eviction pass |
| Simulation.TicksFrom | packages/simulation-lib/simulator.ts:167-177 | any number of ticks keeps the number of points, their invariant and their speed |
| Simulation.TickAt | packages/simulation-lib/simulator.ts:168-177 | the same for tick `k` after ticks 1 to `k - 1` |
| Simulation.YearStart | packages/simulation-lib/simulator.ts:154-159 | a run starts with `n` valid points of the plan's speed |
| Simulation.YearRun | packages/simulation-lib/simulator.ts:154-177 | a run ends with `n` valid points of the plan's speed |
| Simulation.AddYear | packages/simulation-lib/simulator.ts:179-190 | adding a run keeps the table's length and takes over the generator state the run leaves |
| Simulation.Runs | packages/simulation-lib/simulator.ts:152-191 | the per-point table after any number of runs has one entry per point |
| Simulation.RunsLast | packages/simulation-lib/simulator.ts:153-191 | the same after the last of `k >= 1` runs |
| Simulation.Reported | packages/simulation-lib/simulator.ts:193-207 | a report built from the sums of all the runs is what `Simulate` returns |
| Simulation.UniformSpeedSum | packages/simulation-lib/simulator.ts:145 | the speeds of `n` points of one speed add up to `n * speed`, the theoretical maximum |
| Simulation.TicksBounds | packages/simulation-lib/simulator.ts:154-177 | the running maximum stays at most `n * speed`, and is at least 0 after at least one tick |
| Simulation.TickBounds | packages/simulation-lib/simulator.ts:175-176 | one tick's maximum lies between 0 and `n * speed` |
| Simulation.YearBounds | packages/simulation-lib/simulator.ts:154-190 | a run's maximum lies between 0 and `n * speed`, its concurrency factor between 0 and 1; its energy is not negative; each point reports the plan's speed and a non-negative energy |
| Simulation.YearFacts | packages/simulation-lib/simulator.ts:179-190 | the same facts for any year of valid points of the plan's speed with a bounded maximum |
| Simulation.RunsBounds | packages/simulation-lib/simulator.ts:153-191 | after `k` runs the sums lie between 0 and `k` times one run's bound, and each point's speed has been added `k` times |
| Simulation.RunStep | packages/simulation-lib/simulator.ts:179-190 | those bounds carry from `n` runs to `n + 1` runs |
| Simulation.SimulateBounds | packages/simulation-lib/simulator.ts:130-207 | the result of `run`: theoretical maximum `n * speed`; mean maximum between 0 and it; concurrency factor in [0, 100]; non-negative energies; `n` table entries which, for a positive run count, hold the speed |
| Simulation.RunsReportBounds | packages/simulation-lib/simulator.ts:193-205 | the same facts about the report of the runs of a plan |
| Simulation.ReportScalarBounds | packages/simulation-lib/simulator.ts:199-205 | averaging sums within the bounds of `k` runs gives the scalar bounds of the result |
| Simulation.ReportTableBounds | packages/simulation-lib/simulator.ts:193-196 | averaging a table within the bounds of `k` runs gives `n` entries with non-negative energy which, for a positive run count, hold the speed |
| Simulation.PointMean | packages/simulation-lib/simulator.ts:193-196 | a point's sums over `k >= 1` runs average to its speed and to a non-negative energy |
| Simulation.LastTick | packages/simulation-lib/simulator.ts:168-177 | tick `n + 1` joins the maximum and advances the generator by that tick's turns, adding their draws |
| Simulation.NextTick | packages/simulation-lib/simulator.ts:168-177 | tick `n + 1` is one tick from where ticks 1 to `n` leave the run |
| Simulation.TicksAdvance | packages/simulation-lib/simulator.ts:167-177 | the ticks of a run advance the generator by exactly their draws |
| Simulation.LastRun | packages/simulation-lib/simulator.ts:153-191 | run `n + 1` adds one year, started from the generator state the first `n` runs leave, to each sum |
| Simulation.NextRun | packages/simulation-lib/simulator.ts:153-191 | the sums of `n + 1` runs are those of `n` runs with one more year added |
| Simulation.LastRunDraws | packages/simulation-lib/simulator.ts:153-191 | run `n + 1` adds the draws of one year started where the first `n` runs left the generator |
| Simulation.RunsAdvance | packages/simulation-lib/simulator.ts:153-191 | the generator is shared and never reseeded: `k` runs leave it as many steps along its one stream as they draw |
| Simulation.Simulator.constructor | packages/simulation-lib/simulator.ts:117-123 | an accepted configuration is kept, and a new generator is seeded with `seed ?? 1337` |
| Simulation.Simulator.Create | packages/simulation-lib/simulator.ts:117-123 | construction fails with the source's message exactly when the interval is rejected; otherwise the new simulator holds the configuration and a freshly seeded generator |
| Simulation.Simulator.Run | packages/simulation-lib/simulator.ts:130-207 | the result and the generator's new state are `Simulate` from the state at the call, so every property proved of `Simulate` holds of the call |
| Simulation.SimulateRuns | packages/simulation-lib/simulator.ts:142-191 | after the loop over `totalRuns` runs, the sums, the per-point table and the generator are those of `Runs` |
| Simulation.SimulateRun | packages/simulation-lib/simulator.ts:154-191 | one run's year joins the sums and the table as `AddYear` says |
| Simulation.YearJoins | packages/simulation-lib/simulator.ts:186-190 | sums updated field by field are the sums `AddYear` gives |
| Simulation.RunYear | packages/simulation-lib/simulator.ts:154-177 | a new lot on the shared generator; the lot's points, the generator and the maximum end as `YearRun` says |
| Simulation.NewParkingLot | packages/simulation-lib/simulator.ts:156-159 | a new valid lot on the shared generator with `n` new idle points at the plan's speed |
| Simulation.SimulateYear | packages/simulation-lib/simulator.ts:154-177 | the loop over the ticks ends with the points, the generator and the maximum that `TicksFrom` gives from the initial maximum -1 |
| Simulation.SimulateTick | packages/simulation-lib/simulator.ts:168-177 | one tick, run in place, takes the lot from tick `k - 1` to tick `k` of `TicksFrom` |
| Simulation.Accumulate | packages/simulation-lib/simulator.ts:181-184 | the table, updated in place, is the element-wise sum of the old table and the run's entries |

## Left out

- Time zones: the hour of the day comes from an external calendar library, modelled as the parameter `hourOf`. Daylight saving time is therefore not modelled, and only UTC has a formula (`UtcHourOfDay`).
- Floating point: energies, speeds and values are exact reals. The scaled draw is the exact integer quotient, and the arrival table is stored ×100. IEEE-754 rounding and its boundary cases are not reproduced.
- NaN and Infinity:
  - `Simulation.Simulator.Run` requires at least one charge point, a positive speed, a non-negative consumption and an interval other than 0. Zero points divide by zero in the concurrency factor, interval 0 makes the tick count infinite, and a zero speed makes durations infinite.
  - `ChargePoints.ChargePoint.PlugVehicle`, `ChargePoints.ChargePoint.UnPlugVehicle`: require the point invariant: a positive speed, a divisor-of-60 interval, and vehicles with non-negative energy. Outside it the source computes Infinity, NaN or fractional durations.
- `Vehicles.ChargeDurationInIntervals`: multiplies the floored hours by `60 / interval`. This equals the source's `chargeTime * 60 / interval` only for the divisors of 60 the simulator accepts. Fractional intervals such as 7.5 are not modelled: intervals and seeds are integers.
- `Simulation.Simulator.Run`: `totalRuns` and `numberOfChargePoints` are integers in the model; the source takes any number. With a fractional `totalRuns` such as 1.5 the run loop performs 2 runs and the averages divide by 1.5, so the concurrency factor can exceed 100 %. With a fractional `numberOfChargePoints` such as 2.5 the lot gets 3 points but the per-point table only 2 entries, and the `forEach` that adds the table throws at the missing entry.
- `Xorshift.XORShiftGenerator.constructor`: stores the seed already as its 32-bit pattern. The source stores the raw number and applies the int32 conversion at the first shift, so every value `next()` returns is the same.
- `ParkingLots.ParkingLot.AddChargePoint`: requires a point new to the lot and valid for its interval. A point added twice, or shared between lots, would be stepped twice per pass; such aliasing is not modelled.
- The `console.warn` diagnostic for an invalid hour is output only and is left out; the decision and the draws are modelled.
- The read-only getters (`chargingDemand`, `maxChargeSpeed`, `pluggedVehicle`, `chargePoints`) are the fields of the model.
- The stream property across runs is stated as draw accounting (`Simulation.RunsAdvance` with `Xorshift.OutputsConcatenate`). There is no lemma equating the concatenated output sequences of all runs.
- `tsup.config.ts` (build configuration) and the Express, Joi and Prisma packages are not part of this model.
