/**
 * The parking lot (packages/simulation-lib/parking-lot.ts): its charge
 * points in insertion order, the hourly arrival table, the demand sampler,
 * the arrival and eviction passes over the points, and the aggregates.
 *
 * Every random decision takes one step of the shared generator.  The pure
 * functions below say what one pass does to the points' states and to the
 * generator's state; the class `ParkingLot` performs the passes in place.
 */
module ParkingLots {
  import opened Options
  import opened Xorshift
  import opened Vehicles
  import opened ChargePoints

  /**
   * The base arrival probability of each hour of the day, in percent,
   * scaled by 100 (0.94 % is 94): with the multiplier at 100 %, an arrival
   * happens when a draw from 0..9999 falls below this value.
   */
  const ArrivalProbabilities: seq<int> := [
    94, 94, 94, 94, 94, 94, 94, 94, 283, 283, 566, 566,
    566, 755, 755, 755, 1038, 1038, 1038, 472, 472, 472, 94, 94]

  /** `Math.floor(x)` of a generated value scaled to [0, 10000]: the integer part of `u * 10000 / 0xFFFFFFFF`. */
  function ScaledDraw(w: bv32): (d: int)
    ensures 0 <= d <= 10000
  {
    var u := w as int;
    ScaledQuotientBounds(u, (u * 10000) / MaxWord);
    (u * 10000) / MaxWord
  }

  /**
   * The scaled draw reaches 10000 only for the all-ones state, which no step
   * produces (so a drawn value is at most 9999), and is 0 exactly for the
   * states below 1/10000 of the range.
   */
  lemma ScaledDrawExtremes(w: bv32)
    ensures ScaledDraw(w) == 10000 <==> w as int == MaxWord
    ensures ScaledDraw(w) == 0 <==> (w as int) * 10000 < MaxWord
  {
    ScaledQuotientBounds(w as int, ScaledDraw(w));
  }

  /** The quotient `d` of `u * 10000` by 0xFFFFFFFF, for `u` in range, lies in [0, 10000] and is 10000 only at the top. */
  lemma ScaledQuotientBounds(u: int, d: int)
    requires 0 <= u <= MaxWord && d == (u * 10000) / MaxWord
    ensures 0 <= d <= 10000
    ensures d == 10000 <==> u == MaxWord
    ensures d == 0 <==> u * 10000 < MaxWord
  {
    var n := u * 10000;
    var q := n / MaxWord;
    assert q * MaxWord <= n < (q + 1) * MaxWord;
    if u < MaxWord {
      assert n <= MaxWord * 10000 - 10000;
      assert q < 10000;
    } else {
      assert n == 10000 * MaxWord;
    }
  }

  /** The integer part of a quotient of naturals is the integer quotient. */
  lemma FloorOfQuotient(n: int, m: int)
    requires n >= 0 && m > 0
    ensures (n as real / m as real).Floor == n / m
  {
    var q, r := n / m, n % m;
    assert n == q * m + r && 0 <= r < m;
    assert n as real / m as real == q as real + r as real / m as real;
    assert 0.0 <= r as real / m as real < 1.0;
  }

  /**
   * Scaling the value `next()` returns to the range 0..10000, as
   * `getRandomNumber(0, 10000)` does, and flooring it gives the scaled draw.
   */
  lemma ScaledDrawIsFloor(w: bv32)
    ensures (Value(w) * 10000.0).Floor == ScaledDraw(w)
    ensures ScaleToRange(Value(w), 0.0, 10000.0).Floor == ScaledDraw(w)
  {
    assert (Value(w) * 10000.0).Floor == ScaledDraw(w) by {
      var u := w as int;
      assert Value(w) * 10000.0 == (u * 10000) as real / MaxWord as real;
      FloorOfQuotient(u * 10000, MaxWord);
    }
    ScaleFromZero(Value(w), 10000.0);
  }

  /** The multiplier clamped to the supported range of 20 % to 200 %. */
  function ClampMultiplier(multiplier: real): (c: real)
    ensures 20.0 <= c <= 200.0
    ensures 20.0 <= multiplier <= 200.0 ==> c == multiplier
    ensures multiplier < 20.0 ==> c == 20.0
    ensures multiplier > 200.0 ==> c == 200.0
  {
    if multiplier < 20.0 then 20.0 else if multiplier > 200.0 then 200.0 else multiplier
  }

  /**
   * The arrival threshold of an hour on the 0..10000 scale: the base
   * probability, scaled by the clamped multiplier in percent, times 100.
   */
  function ArrivalThreshold(hour: int, multiplier: real): (t: real)
    requires 0 <= hour < |ArrivalProbabilities|
    ensures t * 100.0 == ArrivalProbabilities[hour] as real * ClampMultiplier(multiplier)
    ensures 0.2 * ArrivalProbabilities[hour] as real <= t <= 2.0 * ArrivalProbabilities[hour] as real
    ensures 20.0 <= multiplier <= 200.0 ==> t * 100.0 == ArrivalProbabilities[hour] as real * multiplier
  {
    var baseProbability := ArrivalProbabilities[hour] as real / 100.0;
    var adjustedProbability := baseProbability * (ClampMultiplier(multiplier) / 100.0);
    adjustedProbability * 100.0
  }

  /**
   * `evWillArrive` on generator state `g`: an hour outside 0..23 gives no
   * arrival and leaves the generator alone; otherwise one draw is taken and
   * compared with the hour's threshold.  Returns the decision and the new state.
   */
  function WillArrive(hour: int, multiplier: real, g: bv32): (r: (bool, bv32))
    ensures !(0 <= hour < 24) ==> r == (false, g)
    ensures 0 <= hour < 24 ==> r.1 == Step(g)
    ensures r.0 ==> 0 <= hour < 24 && ScaledDraw(Step(g)) as real < ArrivalThreshold(hour, multiplier)
    ensures 0 <= hour < 24 && ScaledDraw(Step(g)) as real < ArrivalThreshold(hour, multiplier) ==> r.0
  {
    if 0 <= hour < |ArrivalProbabilities| then
      var g1 := Step(g);
      (ScaledDraw(g1) as real < ArrivalThreshold(hour, multiplier), g1)
    else
      (false, g)
  }

  /**
   * `getRandomChargingDemandInKm` on a scaled draw: the draw is compared with
   * cumulative band bounds in order, each band adding its width to the bound.
   */
  function ChargingDemandInKm(probabilityScaled: int): (km: int)
    ensures 0 <= km <= 300
  {
    var b1 := 294;
    if probabilityScaled < b1 then 300
    else var b2 := b1 + 490;
    if probabilityScaled < b2 then 5
    else var b3 := b2 + 490;
    if probabilityScaled < b3 then 200
    else var b4 := b3 + 882;
    if probabilityScaled < b4 then 30
    else var b5 := b4 + 980;
    if probabilityScaled < b5 then 10
    else var b6 := b5 + 1078;
    if probabilityScaled < b6 then 100
    else var b7 := b6 + 1176;
    if probabilityScaled < b7 then 20
    else var b8 := b7 + 1176;
    if probabilityScaled < b8 then 50
    else var b9 := b8 + 3431;
    if probabilityScaled < b9 then 0
    else 0
  }

  /** The demand table as data: the upper bound of each band on the 0..10000 scale and its demand in km. */
  const DemandBounds: seq<int> := [294, 784, 1274, 2156, 3136, 4214, 5390, 6566, 9997]
  const DemandValues: seq<int> := [300, 5, 200, 30, 10, 100, 20, 50, 0]

  /** The demand of the first band from index `k` on whose bound exceeds the draw, 0 past the last band. */
  function BandLookup(probabilityScaled: int, k: nat): (km: int)
    requires k <= |DemandBounds|
    decreases |DemandBounds| - k
  {
    if k == |DemandBounds| then 0
    else if probabilityScaled < DemandBounds[k] then DemandValues[k]
    else BandLookup(probabilityScaled, k + 1)
  }

  /**
   * The sampler agrees with the table for every draw: its result is the
   * demand of the first band whose bound exceeds the draw, and 0 beyond the
   * last bound; so it is one of the listed demands, a draw of 0 gives 300 km
   * and every draw from 9997 on gives 0 km.
   */
  lemma ChargingDemandMatchesTable(probabilityScaled: int)
    ensures ChargingDemandInKm(probabilityScaled) == BandLookup(probabilityScaled, 0)
    ensures ChargingDemandInKm(probabilityScaled) in DemandValues
    ensures probabilityScaled < 294 ==> ChargingDemandInKm(probabilityScaled) == 300
    ensures probabilityScaled >= 9997 ==> ChargingDemandInKm(probabilityScaled) == 0
  {
    var d := probabilityScaled;
    assert BandLookup(d, 0) == if d < 294 then 300 else BandLookup(d, 1);
    assert BandLookup(d, 1) == if d < 784 then 5 else BandLookup(d, 2);
    assert BandLookup(d, 2) == if d < 1274 then 200 else BandLookup(d, 3);
    assert BandLookup(d, 3) == if d < 2156 then 30 else BandLookup(d, 4);
    assert BandLookup(d, 4) == if d < 3136 then 10 else BandLookup(d, 5);
    assert BandLookup(d, 5) == if d < 4214 then 100 else BandLookup(d, 6);
    assert BandLookup(d, 6) == if d < 5390 then 20 else BandLookup(d, 7);
    assert BandLookup(d, 7) == if d < 6566 then 50 else BandLookup(d, 8);
    assert BandLookup(d, 8) == if d < 9997 then 0 else BandLookup(d, 9);
    assert BandLookup(d, 9) == 0;
  }

  /** Every point of a lot satisfies the charge point invariant. */
  ghost predicate AllValid(states: seq<PointState>, interval: int)
  {
    forall i {:trigger Valid(states[i], interval)} :: 0 <= i < |states| ==> Valid(states[i], interval)
  }

  /**
   * The random part of one point's turn in `simulateEvArrivalsAtChargePoints`,
   * from generator state `g`: the demand in km of the EV that arrives, if
   * one does (a second draw picks it), and the generator's new state.  It
   * depends on the generator only, never on the point.
   */
  function Turn(hour: int, multiplier: real, g: bv32): (r: (Option<int>, bv32))
    ensures r.0.Some? ==> 0 <= r.0.value <= 300
  {
    var (arrives, g1) := WillArrive(hour, multiplier, g);
    if arrives then
      var g2 := Step(g1);
      (Some(ChargingDemandInKm(ScaledDraw(g2))), g2)
    else
      (None, g1)
  }

  /** The turns of `n` points in a row from generator state `g`: each one's arrival, in order, and the final state. */
  function Turns(n: nat, hour: int, multiplier: real, g: bv32): (r: (seq<Option<int>>, bv32))
    ensures |r.0| == n
    ensures forall i :: 0 <= i < n && r.0[i].Some? ==> 0 <= r.0[i].value <= 300
    decreases n, 1
  {
    if n == 0 then ([], g) else TurnsLast(n, hour, multiplier, g)
  }

  /** The turns of `n >= 1` points: those of the first `n - 1`, then the last point's own turn. */
  function TurnsLast(n: nat, hour: int, multiplier: real, g: bv32): (r: (seq<Option<int>>, bv32))
    requires n >= 1
    ensures |r.0| == n
    ensures forall i :: 0 <= i < n && r.0[i].Some? ==> 0 <= r.0[i].value <= 300
    decreases n, 0
  {
    var prev := Turns(n - 1, hour, multiplier, g);
    var turn := Turn(hour, multiplier, prev.1);
    (prev.0 + [turn.0], turn.1)
  }

  /** What its turn does to a point: the arriving EV, with the lot's consumption, is plugged in. */
  function ArriveAt(s: PointState, arrival: Option<int>, consumption: real, interval: int): (r: PointState)
    requires Valid(s, interval) && consumption >= 0.0 && (arrival.Some? ==> arrival.value >= 0)
    ensures Valid(r, interval)
    ensures r.maxChargeSpeed == s.maxChargeSpeed && r.totalEnergyConsumed == s.totalEnergyConsumed
    ensures arrival.None? ==> r == s
    ensures arrival.Some? ==> Occupied(r)
  {
    match arrival
    case None => s
    case Some(km) => Plug(s, EV(km as real, consumption), interval)
  }

  /** The arrivals of a pass have non-negative demands. */
  predicate NonNegativeDemands(arrivals: seq<Option<int>>)
  {
    forall i :: 0 <= i < |arrivals| && arrivals[i].Some? ==> arrivals[i].value >= 0
  }

  /** `simulateEvArrivalsAtChargePoints` on the points' states: each point receives its own arrival. */
  function ArrivalPass(states: seq<PointState>, arrivals: seq<Option<int>>, consumption: real, interval: int)
    : (r: seq<PointState>)
    requires |arrivals| == |states| && AllValid(states, interval) && consumption >= 0.0
    requires NonNegativeDemands(arrivals)
    ensures |r| == |states| && AllValid(r, interval)
    decreases |states|, 1
  {
    if states == [] then [] else ArrivalPassLast(states, arrivals, consumption, interval)
  }

  /** The arrival pass over a non-empty list: the pass over all points but the last, then the last one's arrival. */
  function ArrivalPassLast(states: seq<PointState>, arrivals: seq<Option<int>>, consumption: real, interval: int)
    : (r: seq<PointState>)
    requires |arrivals| == |states| && AllValid(states, interval) && consumption >= 0.0
    requires NonNegativeDemands(arrivals) && states != []
    ensures |r| == |states| && AllValid(r, interval)
    decreases |states|, 0
  {
    var n := |states| - 1;
    ArrivalPass(states[..n], arrivals[..n], consumption, interval)
      + [ArriveAt(states[n], arrivals[n], consumption, interval)]
  }

  /** In the arrival pass each point receives its own arrival and no other. */
  lemma {:induction false} ArrivalPassAt(states: seq<PointState>, arrivals: seq<Option<int>>, consumption: real,
                                         interval: int)
    requires |arrivals| == |states| && AllValid(states, interval) && consumption >= 0.0
    requires NonNegativeDemands(arrivals)
    ensures forall i :: 0 <= i < |states| ==>
      ArrivalPass(states, arrivals, consumption, interval)[i] == ArriveAt(states[i], arrivals[i], consumption, interval)
  {
    if states != [] {
      var n := |states| - 1;
      ArrivalPassAt(states[..n], arrivals[..n], consumption, interval);
    }
  }

  /** The number of generator steps one point's turn takes: one for the arrival check, one more for an arrival. */
  function TurnDraws(hour: int, multiplier: real, g: bv32): (n: nat)
  {
    (if 0 <= hour < 24 then 1 else 0) + (if WillArrive(hour, multiplier, g).0 then 1 else 0)
  }

  /** One point's turn advances the generator by exactly its draws, at most two; none for a bad hour. */
  lemma TurnAdvances(hour: int, multiplier: real, g: bv32)
    ensures Turn(hour, multiplier, g).1 == Iterate(g, TurnDraws(hour, multiplier, g))
    ensures 0 <= hour < 24 ==> 1 <= TurnDraws(hour, multiplier, g) <= 2
    ensures !(0 <= hour < 24) ==> TurnDraws(hour, multiplier, g) == 0 && Turn(hour, multiplier, g) == (None, g)
  {
    var (arrives, g1) := WillArrive(hour, multiplier, g);
    if 0 <= hour < 24 {
      assert Iterate(g, 1) == g1;
      if arrives {
        assert TurnDraws(hour, multiplier, g) == 2;
        assert Iterate(g, 2) == Step(Iterate(g, 1));
      } else {
        assert TurnDraws(hour, multiplier, g) == 1;
      }
    } else {
      assert TurnDraws(hour, multiplier, g) == 0;
    }
  }

  /** The number of generator steps the turns of `n` points take: each turn's draws, in order. */
  function Draws(n: nat, hour: int, multiplier: real, g: bv32): (d: nat)
    decreases n, 1
  {
    if n == 0 then 0 else DrawsLast(n, hour, multiplier, g)
  }

  /** The draws of the turns of `n >= 1` points: those of the first `n - 1`, then the last point's. */
  function DrawsLast(n: nat, hour: int, multiplier: real, g: bv32): (d: nat)
    requires n >= 1
    decreases n, 0
  {
    Draws(n - 1, hour, multiplier, g) + TurnDraws(hour, multiplier, Turns(n - 1, hour, multiplier, g).1)
  }

  /** Draw order of the arrival pass: the turns of `n` points advance the generator by exactly their draws. */
  lemma {:induction false} TurnsAdvance(n: nat, hour: int, multiplier: real, g: bv32)
    ensures Turns(n, hour, multiplier, g).1 == Iterate(g, Draws(n, hour, multiplier, g))
  {
    if n > 0 {
      TurnsAdvance(n - 1, hour, multiplier, g);
      LastTurn(n, hour, multiplier, g);
      AdvanceByTurn(hour, multiplier, g, Draws(n - 1, hour, multiplier, g), Turns(n - 1, hour, multiplier, g).1);
    }
  }

  /** The turns of `n + 1` points: those of the first `n`, then one more from where they leave the generator. */
  lemma NextTurns(n: nat, hour: int, multiplier: real, g: bv32)
    ensures var prev := Turns(n, hour, multiplier, g);
      var turn := Turn(hour, multiplier, prev.1);
      Turns(n + 1, hour, multiplier, g) == (prev.0 + [turn.0], turn.1)
  {
  }

  /** `arrivals` are the arrivals the turns of the first `i` points draw from state `g0`, which they leave at `g`. */
  predicate Drawn(i: nat, hour: int, multiplier: real, g0: bv32, arrivals: seq<Option<int>>, g: bv32)
  {
    (arrivals, g) == Turns(i, hour, multiplier, g0)
  }

  /** The last of `n` turns starts where the first `n - 1` end and adds its own draws. */
  lemma {:induction false} LastTurn(n: nat, hour: int, multiplier: real, g: bv32)
    requires n > 0
    ensures var g1 := Turns(n - 1, hour, multiplier, g).1;
      && Turns(n, hour, multiplier, g).1 == Turn(hour, multiplier, g1).1
      && Draws(n, hour, multiplier, g) == Draws(n - 1, hour, multiplier, g) + TurnDraws(hour, multiplier, g1)
  {
  }

  /** A turn taken `k` steps into the stream from `g` ends its draws `k` plus those draws into it. */
  lemma {:induction false} AdvanceByTurn(hour: int, multiplier: real, g: bv32, k: nat, g1: bv32)
    requires g1 == Iterate(g, k)
    ensures Turn(hour, multiplier, g1).1 == Iterate(g, k + TurnDraws(hour, multiplier, g1))
  {
    TurnAdvances(hour, multiplier, g1);
    IterateChain(g, k, g1, TurnDraws(hour, multiplier, g1), Turn(hour, multiplier, g1).1,
                 k + TurnDraws(hour, multiplier, g1));
  }

  /** The turns of `n` points take one or two draws each for an hour of the day, none for any other hour. */
  lemma {:induction false} DrawsBounds(n: nat, hour: int, multiplier: real, g: bv32)
    ensures 0 <= hour < 24 ==> n <= Draws(n, hour, multiplier, g) <= 2 * n
    ensures !(0 <= hour < 24) ==> Draws(n, hour, multiplier, g) == 0
  {
    if n > 0 {
      DrawsBounds(n - 1, hour, multiplier, g);
      TurnAdvances(hour, multiplier, Turns(n - 1, hour, multiplier, g).1);
    }
  }

  /** With an hour outside 0..23 no EV arrives and no draw is taken. */
  lemma {:induction false} TurnsInvalidHour(n: nat, hour: int, multiplier: real, g: bv32)
    requires !(0 <= hour < 24)
    ensures Turns(n, hour, multiplier, g).1 == g
    ensures forall i :: 0 <= i < n ==> Turns(n, hour, multiplier, g).0[i].None?
  {
    if n > 0 {
      TurnsInvalidHour(n - 1, hour, multiplier, g);
      TurnAdvances(hour, multiplier, g);
    }
  }

  /** A pass in which no EV arrives leaves every point as it was. */
  lemma {:induction false} NoArrivalsChangeNothing(states: seq<PointState>, arrivals: seq<Option<int>>, consumption: real, interval: int)
    requires |arrivals| == |states| && AllValid(states, interval) && consumption >= 0.0
    requires forall i :: 0 <= i < |arrivals| ==> arrivals[i].None?
    ensures ArrivalPass(states, arrivals, consumption, interval) == states
  {
    ArrivalPassAt(states, arrivals, consumption, interval);
  }

  /** `evictEvsIfChargingComplete` on the points' states: every point unplugs once. */
  function EvictionPass(states: seq<PointState>, interval: int): (r: seq<PointState>)
    requires AllValid(states, interval)
    ensures |r| == |states| && AllValid(r, interval)
    decreases |states|, 1
  {
    if states == [] then [] else EvictionPassLast(states, interval)
  }

  /** The eviction pass over a non-empty list: the pass over all points but the last, then the last one unplugs. */
  function EvictionPassLast(states: seq<PointState>, interval: int): (r: seq<PointState>)
    requires AllValid(states, interval) && states != []
    ensures |r| == |states| && AllValid(r, interval)
    decreases |states|, 0
  {
    EvictionPass(states[..|states| - 1], interval) + [Unplug(states[|states| - 1], interval)]
  }

  /** In the eviction pass each point takes its own unplugging step. */
  lemma {:induction false} EvictionPassAt(states: seq<PointState>, interval: int)
    requires AllValid(states, interval)
    ensures forall i :: 0 <= i < |states| ==> EvictionPass(states, interval)[i] == Unplug(states[i], interval)
  {
    if states != [] {
      EvictionPassAt(states[..|states| - 1], interval);
    }
  }

  /** The sum of the points' energy counters (`totalEnergyConsumed`). */
  function TotalEnergy(states: seq<PointState>): real
  {
    if states == [] then 0.0 else TotalEnergy(states[..|states| - 1]) + states[|states| - 1].totalEnergyConsumed
  }

  /** The sum of the points' maximum speeds. */
  function SumOfSpeeds(states: seq<PointState>): real
  {
    if states == [] then 0.0 else SumOfSpeeds(states[..|states| - 1]) + states[|states| - 1].maxChargeSpeed
  }

  /** The occupied points, in list order. */
  function OccupiedPoints(states: seq<PointState>): (r: seq<PointState>)
    ensures |r| <= |states|
  {
    if states == [] then []
    else
      var last := states[|states| - 1];
      OccupiedPoints(states[..|states| - 1]) + (if Occupied(last) then [last] else [])
  }

  /** `theoreticalMaxPowerDemand`: every point charging at full speed. */
  function TheoreticalMaxPower(states: seq<PointState>): real
  {
    SumOfSpeeds(states)
  }

  /** `instantaneousPowerDemand`: the occupied points charging at full speed. */
  function InstantaneousPower(states: seq<PointState>): real
  {
    SumOfSpeeds(OccupiedPoints(states))
  }

  /**
   * Instantaneous power never exceeds the theoretical maximum and is not
   * negative; it is 0 when no point is occupied and reaches the maximum when
   * every point is.
   */
  lemma {:induction false} InstantaneousPowerBounds(states: seq<PointState>)
    requires forall i :: 0 <= i < |states| ==> states[i].maxChargeSpeed >= 0.0
    ensures 0.0 <= InstantaneousPower(states) <= TheoreticalMaxPower(states)
    ensures (forall i :: 0 <= i < |states| ==> !Occupied(states[i])) ==> InstantaneousPower(states) == 0.0
    ensures (forall i :: 0 <= i < |states| ==> Occupied(states[i])) ==>
      InstantaneousPower(states) == TheoreticalMaxPower(states)
  {
    if states != [] {
      var front := states[..|states| - 1];
      InstantaneousPowerBounds(front);
      var last := states[|states| - 1];
      assert OccupiedPoints(states) == OccupiedPoints(front) + (if Occupied(last) then [last] else []);
      SumOfSpeedsAppend(OccupiedPoints(front), if Occupied(last) then [last] else []);
    }
  }

  lemma {:induction false} SumOfSpeedsAppend(a: seq<PointState>, b: seq<PointState>)
    ensures SumOfSpeeds(a + b) == SumOfSpeeds(a) + SumOfSpeeds(b)
  {
    if b != [] {
      SumOfSpeedsAppend(a, b[..|b| - 1]);
      assert (a + b)[..|a + b| - 1] == a + b[..|b| - 1];
    } else {
      assert a + b == a;
    }
  }

  /** Non-negative energy counters add up to a non-negative total. */
  lemma {:induction false} TotalEnergyNonNegative(states: seq<PointState>)
    requires forall i :: 0 <= i < |states| ==> states[i].totalEnergyConsumed >= 0.0
    ensures TotalEnergy(states) >= 0.0
  {
    if states != [] {
      TotalEnergyNonNegative(states[..|states| - 1]);
    }
  }

  /** Every point of a valid lot has a positive speed and a non-negative energy counter. */
  lemma ValidFields(states: seq<PointState>, interval: int)
    requires AllValid(states, interval)
    ensures forall i :: 0 <= i < |states| ==> states[i].maxChargeSpeed > 0.0 && states[i].totalEnergyConsumed >= 0.0
  {
    forall i | 0 <= i < |states| ensures states[i].maxChargeSpeed > 0.0 && states[i].totalEnergyConsumed >= 0.0 {
      assert Valid(states[i], interval);
    }
  }

  /** The energy counters of a valid lot add up to a non-negative total. */
  lemma {:induction false} ValidEnergyNonNegative(states: seq<PointState>, interval: int)
    ensures AllValid(states, interval) ==> TotalEnergy(states) >= 0.0
  {
    if AllValid(states, interval) {
      ValidFields(states, interval);
      TotalEnergyNonNegative(states);
    }
  }

  /** The speeds of a valid lot add up to a non-negative total that is positive unless the lot is empty. */
  lemma {:induction false} ValidSpeedsPositive(states: seq<PointState>, interval: int)
    ensures AllValid(states, interval) ==> TheoreticalMaxPower(states) >= 0.0
    ensures AllValid(states, interval) && states != [] ==> TheoreticalMaxPower(states) > 0.0
  {
    if AllValid(states, interval) && states != [] {
      var front := states[..|states| - 1];
      forall i | 0 <= i < |front| ensures Valid(front[i], interval) {
        assert front[i] == states[i] && Valid(states[i], interval);
      }
      assert Valid(states[|states| - 1], interval);
      ValidSpeedsPositive(front, interval);
    }
  }

  /** In a valid lot the instantaneous power lies between 0 and the theoretical maximum. */
  lemma {:induction false} ValidPowerBounds(states: seq<PointState>, interval: int)
    ensures AllValid(states, interval) ==> 0.0 <= InstantaneousPower(states) <= TheoreticalMaxPower(states)
  {
    if AllValid(states, interval) {
      ValidFields(states, interval);
      InstantaneousPowerBounds(states);
    }
  }

  /** One entry of `energyPerChargePoint`. */
  datatype PointEnergy = PointEnergy(maxChargeSpeed: real, totalEnergyConsumed: real)

  /** `energyPerChargePoint`: one entry per point, in list order, with its speed and energy. */
  function EnergyPerPoint(states: seq<PointState>): (r: seq<PointEnergy>)
    ensures |r| == |states|
  {
    if states == [] then []
    else
      var last := states[|states| - 1];
      EnergyPerPoint(states[..|states| - 1]) + [PointEnergy(last.maxChargeSpeed, last.totalEnergyConsumed)]
  }

  /** Each entry of `energyPerChargePoint` holds its own point's speed and energy. */
  lemma {:induction false} EnergyPerPointAt(states: seq<PointState>)
    ensures forall i :: 0 <= i < |states| ==>
      EnergyPerPoint(states)[i].maxChargeSpeed == states[i].maxChargeSpeed
      && EnergyPerPoint(states)[i].totalEnergyConsumed == states[i].totalEnergyConsumed
  {
    if states != [] {
      EnergyPerPointAt(states[..|states| - 1]);
    }
  }

  /** The states of the given charge points, in list order. */
  function StatesOf(points: seq<ChargePoint>): (r: seq<PointState>)
    reads points
    ensures |r| == |points|
  {
    if points == [] then [] else StatesOf(points[..|points| - 1]) + [points[|points| - 1].State()]
  }

  /** Entry `i` of the states of a list of charge points is the state of its point at index `i`. */
  lemma {:induction false} StatesOfAt(points: seq<ChargePoint>)
    ensures forall i :: 0 <= i < |points| ==> StatesOf(points)[i] == points[i].State()
    decreases |points|
  {
    if points != [] {
      StatesOfAt(points[..|points| - 1]);
    }
  }

  /** Points whose states are the arrivals applied to `states` hold the arrival pass of `states`. */
  lemma {:induction false} ArrivalPassOfPoints(points: seq<ChargePoint>, states: seq<PointState>, arrivals: seq<Option<int>>,
                            consumption: real, interval: int)
    requires |points| == |arrivals| == |states| && AllValid(states, interval) && consumption >= 0.0
    requires NonNegativeDemands(arrivals)
    requires forall j :: 0 <= j < |points| ==>
      points[j].State() == ArriveAt(states[j], arrivals[j], consumption, interval)
    ensures StatesOf(points) == ArrivalPass(states, arrivals, consumption, interval)
  {
    StatesOfAt(points);
    ArrivalPassAt(states, arrivals, consumption, interval);
  }

  /** Points whose states are `states` unplugged once hold the eviction pass of `states`. */
  lemma {:induction false} EvictionPassOfPoints(points: seq<ChargePoint>, states: seq<PointState>, interval: int)
    requires |points| == |states| && AllValid(states, interval)
    requires forall j :: 0 <= j < |points| ==> points[j].State() == Unplug(states[j], interval)
    ensures StatesOf(points) == EvictionPass(states, interval)
  {
    StatesOfAt(points);
    EvictionPassAt(states, interval);
  }

  /** No charge point appears twice in the list: each one differs from all those before it. */
  predicate Distinct(points: seq<ChargePoint>)
  {
    points == [] || (var n := |points| - 1; Distinct(points[..n]) && points[n] !in points[..n])
  }

  /** In a list without repetitions, the point at index `i` differs from the point at every other index. */
  lemma {:induction false} DistinctAt(points: seq<ChargePoint>, i: int)
    requires Distinct(points) && 0 <= i < |points|
    ensures forall j :: 0 <= j < |points| && j != i ==> points[j] != points[i]
  {
    var n := |points| - 1;
    if i < n {
      DistinctAt(points[..n], i);
      assert points[i] == points[..n][i];
    } else {
      assert forall j :: 0 <= j < n ==> points[j] == points[..n][j];
    }
  }

  class ParkingLot {
    var chargePoints: seq<ChargePoint>
    const consumptionOfCars: real
    const interval: int
    const generator: XORShiftGenerator

    /** The lot's settings and list: a valid interval and consumption, and charge points that are distinct objects. */
    ghost predicate Shape()
      reads this
    {
      && DividesHour(interval)
      && consumptionOfCars >= 0.0
      && Distinct(chargePoints)
    }

    /** The lot's invariant: its shape, and each charge point valid for the lot's interval. */
    ghost predicate Valid()
      reads this, chargePoints
    {
      Shape() && AllValid(States(), interval)
    }

    /** The charge points' states, in list order. */
    function States(): (r: seq<PointState>)
      reads this, chargePoints
      ensures |r| == |chargePoints|
    {
      StatesOf(chargePoints)
    }

    constructor (consumptionOfCars: real, interval: int, generator: XORShiftGenerator)
      requires DividesHour(interval) && consumptionOfCars >= 0.0
      ensures Valid()
      ensures chargePoints == []
      ensures this.consumptionOfCars == consumptionOfCars && this.interval == interval
      ensures this.generator == generator
    {
      chargePoints := [];
      this.consumptionOfCars := consumptionOfCars;
      this.interval := interval;
      this.generator := generator;
    }

    /** `addChargePoint`: the point goes at the end of the list. */
    method AddChargePoint(chargePoint: ChargePoint)
      requires Valid() && ChargePoints.Valid(chargePoint.State(), interval) && chargePoint !in chargePoints
      modifies this
      ensures Valid()
      ensures chargePoints == old(chargePoints) + [chargePoint]
      ensures States() == old(States()) + [chargePoint.State()]
    {
      var points := chargePoints + [chargePoint];
      assert points[..|chargePoints|] == chargePoints;
      assert StatesOf(points) == StatesOf(chargePoints) + [chargePoint.State()];
      chargePoints := points;
    }

    /**
     * `getRandomNumber`: one call of `next()`, scaled to the range from `min`
     * (included) to `max` (excluded).
     */
    method GetRandomNumber(min: real, max: real) returns (x: real)
      modifies generator
      ensures generator.state == Step(old(generator.state))
      ensures x == ScaleToRange(Value(generator.state), min, max)
      ensures min < max ==> min <= x < max
    {
      var v := generator.Next();
      x := ScaleToRange(v, min, max);
      ScaleToRangeBounds(v, min, max);
    }

    /**
     * `evWillArrive`: for an hour of the day, one draw from 0..9999 compared
     * with the hour's threshold; any other hour gives no arrival and no draw.
     */
    method EvWillArrive(currentHour: int, multiplier: real) returns (arrives: bool)
      modifies generator
      ensures (arrives, generator.state) == WillArrive(currentHour, multiplier, old(generator.state))
    {
      if 0 <= currentHour < |ArrivalProbabilities| {
        var threshold := ArrivalThreshold(currentHour, multiplier);
        var x := GetRandomNumber(0.0, 10000.0);
        var probabilityScaled := x.Floor;
        ScaledDrawIsFloor(generator.state);
        arrives := probabilityScaled as real < threshold;
      } else {
        arrives := false;
      }
    }

    /** `getRandomChargingDemandInKm`: one draw from 0..9999 looked up in the demand table. */
    method GetRandomChargingDemandInKm() returns (km: int)
      modifies generator
      ensures generator.state == Step(old(generator.state))
      ensures km == ChargingDemandInKm(ScaledDraw(generator.state))
      ensures km in DemandValues && km >= 0
    {
      var x := GetRandomNumber(0.0, 10000.0);
      var probabilityScaled := x.Floor;
      ScaledDrawIsFloor(generator.state);
      km := ChargingDemandInKm(probabilityScaled);
      ChargingDemandMatchesTable(probabilityScaled);
    }

    /** The body of the arrival loop for one charge point. */
    method SimulateEvArrivalAt(chargePoint: ChargePoint, hourOfDay: int, multiplier: real)
      requires ChargePoints.Valid(chargePoint.State(), interval) && consumptionOfCars >= 0.0
      modifies chargePoint, generator
      ensures var turn := Turn(hourOfDay, multiplier, old(generator.state));
        && generator.state == turn.1
        && chargePoint.State() == ArriveAt(old(chargePoint.State()), turn.0, consumptionOfCars, interval)
    {
      var arrives := EvWillArrive(hourOfDay, multiplier);
      if arrives {
        var chargingDemand := GetRandomChargingDemandInKm();
        var ev := EV(chargingDemand as real, consumptionOfCars);
        chargePoint.PlugVehicle(ev, interval);
      }
    }

    /**
     * One iteration of the arrival loop: the turn of point `i`, after the
     * turns of the points before it, from generator state `g0` and point
     * states `states0`.
     */
    method ArrivalStep(points: seq<ChargePoint>, i: nat, hourOfDay: int, multiplier: real,
                       ghost states0: seq<PointState>, ghost g0: bv32, ghost arrivals: seq<Option<int>>)
      returns (ghost arrivals': seq<Option<int>>)
      requires i < |points| == |states0| && Distinct(points)
      requires AllValid(states0, interval) && consumptionOfCars >= 0.0
      requires Drawn(i, hourOfDay, multiplier, g0, arrivals, generator.state)
      requires forall j :: 0 <= j < i ==>
        points[j].State() == ArriveAt(states0[j], arrivals[j], consumptionOfCars, interval)
      requires forall j :: i <= j < |points| ==> points[j].State() == states0[j]
      modifies points[i], generator
      ensures Drawn(i + 1, hourOfDay, multiplier, g0, arrivals', generator.state)
      ensures forall j :: 0 <= j < i + 1 ==>
        points[j].State() == ArriveAt(states0[j], arrivals'[j], consumptionOfCars, interval)
      ensures forall j :: i + 1 <= j < |points| ==> points[j].State() == states0[j]
    {
      DistinctAt(points, i);
      NextTurns(i, hourOfDay, multiplier, g0);
      ghost var before := generator.state;
      SimulateEvArrivalAt(points[i], hourOfDay, multiplier);
      arrivals' := arrivals + [Turn(hourOfDay, multiplier, before).0];
    }

    /**
     * `simulateEvArrivalsAtChargePoints`: each point in list order gets an
     * arrival check and, on an arrival, a demand draw and a new EV with the
     * lot's consumption plugged into it.  The draws are the turns of as many
     * points as the lot has; each point receives the arrival of its own turn.
     */
    method SimulateEvArrivalsAtChargePoints(hourOfDay: int, multiplier: Option<real>)
      requires Valid()
      modifies chargePoints, generator
      ensures Valid()
      ensures generator.state == Turns(|chargePoints|, hourOfDay, multiplier.GetOr(100.0), old(generator.state)).1
      ensures States() == ArrivalPass(old(States()),
                                      Turns(|chargePoints|, hourOfDay, multiplier.GetOr(100.0), old(generator.state)).0,
                                      consumptionOfCars, interval)
    {
      var m := multiplier.GetOr(100.0);
      ghost var states0, g0 := States(), generator.state;
      StatesOfAt(chargePoints);
      ghost var arrivals: seq<Option<int>> := [];
      var points := chargePoints;
      var i := 0;
      while i < |points|
        invariant 0 <= i <= |points|
        invariant Drawn(i, hourOfDay, m, g0, arrivals, generator.state)
        invariant forall j :: 0 <= j < i ==>
          points[j].State() == ArriveAt(states0[j], arrivals[j], consumptionOfCars, interval)
        invariant forall j :: i <= j < |points| ==> points[j].State() == states0[j]
      {
        arrivals := ArrivalStep(points, i, hourOfDay, m, states0, g0, arrivals);
        i := i + 1;
      }
      ArrivalPassOfPoints(points, states0, arrivals, consumptionOfCars, interval);
    }

    /** `evictEvsIfChargingComplete`: every point in list order takes its unplugging step. */
    method EvictEvsIfChargingComplete()
      requires Valid()
      modifies chargePoints
      ensures Valid()
      ensures States() == EvictionPass(old(States()), interval)
    {
      ghost var states0 := States();
      StatesOfAt(chargePoints);
      var i := 0;
      while i < |chargePoints|
        invariant 0 <= i <= |chargePoints|
        invariant forall j :: 0 <= j < i ==> chargePoints[j].State() == Unplug(states0[j], interval)
        invariant forall j :: i <= j < |chargePoints| ==> chargePoints[j].State() == states0[j]
      {
        DistinctAt(chargePoints, i);
        chargePoints[i].UnPlugVehicle(interval);
        i := i + 1;
      }
      EvictionPassOfPoints(chargePoints, states0, interval);
    }

    /** `totalEnergyConsumed`: the sum of the points' energy counters, never negative in a valid lot. */
    function TotalEnergyConsumed(): (r: real)
      reads this, chargePoints
      ensures r == TotalEnergy(States())
      ensures Valid() ==> r >= 0.0
    {
      ValidEnergyNonNegative(States(), interval);
      TotalEnergy(States())
    }

    /** `theoreticalMaxPowerDemand`: the sum of the points' speeds, positive in a valid non-empty lot. */
    function TheoreticalMaxPowerDemand(): (r: real)
      reads this, chargePoints
      ensures r == TheoreticalMaxPower(States())
      ensures Valid() ==> r >= 0.0 && (chargePoints != [] ==> r > 0.0)
    {
      ValidSpeedsPositive(States(), interval);
      TheoreticalMaxPower(States())
    }

    /** `instantaneousPowerDemand`: the speeds of the occupied points, between 0 and the theoretical maximum. */
    function InstantaneousPowerDemand(): (r: real)
      reads this, chargePoints
      ensures r == InstantaneousPower(States())
      ensures Valid() ==> 0.0 <= r <= TheoreticalMaxPowerDemand()
    {
      ValidPowerBounds(States(), interval);
      InstantaneousPower(States())
    }

    /** `energyPerChargePoint`: one entry per point, in list order. */
    function EnergyPerChargePoint(): (r: seq<PointEnergy>)
      reads this, chargePoints
      ensures r == EnergyPerPoint(States())
      ensures |r| == |chargePoints|
      ensures forall i :: 0 <= i < |r| ==>
        r[i].maxChargeSpeed == chargePoints[i].maxChargeSpeed
        && r[i].totalEnergyConsumed == chargePoints[i].totalEnergyConsumed
    {
      StatesOfAt(chargePoints);
      EnergyPerPointAt(States());
      EnergyPerPoint(States())
    }
  }

  /** A value in [0, 1) stretched over the range from `min` to `max`: `v * (max - min) + min`. */
  function ScaleToRange(v: real, min: real, max: real): real
  {
    Times(v, max - min) + min
  }

  /** From a minimum of 0 the scaled value is the value times the width. */
  lemma ScaleFromZero(v: real, width: real)
    ensures ScaleToRange(v, 0.0, width) == v * width
  {
  }

  /** Real multiplication under a name, so that the solver keeps the scaled width as one term. */
  function Times(a: real, b: real): real
  {
    a * b
  }

  /** Scaling a value in [0, 1) to a non-empty range lands inside it, the upper end excluded. */
  lemma ScaleToRangeBounds(v: real, min: real, max: real)
    requires 0.0 <= v < 1.0
    ensures min < max ==> min <= ScaleToRange(v, min, max) < max
  {
    if min < max {
      FractionOfWidth(v, max - min);
    }
  }

  lemma FractionOfWidth(v: real, width: real)
    requires 0.0 <= v < 1.0 && width > 0.0
    ensures 0.0 <= Times(v, width) < width
  {
    assert (1.0 - v) * width > 0.0;
  }
}
