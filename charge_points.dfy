/**
 * A charge point of the parking lot (packages/simulation-lib/charge-point.ts):
 * idle, or occupied by one vehicle with a countdown of charging intervals,
 * with a FIFO queue of waiting vehicles and an energy counter.
 *
 * `PointState` is the value of a charge point's fields; `Plug` and `Unplug`
 * are the two transitions as functions of that value, and the class
 * `ChargePoint` performs them in place.
 */
module ChargePoints {
  import opened Options
  import opened Vehicles

  datatype PointState = PointState(
    maxChargeSpeed: real,
    pluggedVehicle: Option<EV>,
    remainingChargeIntervals: int,
    queue: seq<EV>,
    totalEnergyConsumed: real)

  /** A newly built charge point: nothing plugged, nothing queued, no energy. */
  function Idle(maxChargeSpeed: real): PointState
  {
    PointState(maxChargeSpeed, None, 0, [], 0.0)
  }

  predicate Occupied(s: PointState)
  {
    s.pluggedVehicle.Some?
  }

  /** A vehicle whose required energy is not negative, as every vehicle the parking lot creates. */
  predicate Chargeable(ev: EV)
  {
    EnergyRequired(ev) >= 0.0
  }

  /** Every queued vehicle is chargeable, head first. */
  predicate AllChargeable(queue: seq<EV>)
  {
    queue == [] || (Chargeable(queue[0]) && AllChargeable(queue[1..]))
  }

  /** Queueing a chargeable vehicle at the tail keeps the queue chargeable. */
  lemma {:induction false} AllChargeableAppend(queue: seq<EV>, ev: EV)
    requires AllChargeable(queue) && Chargeable(ev)
    ensures AllChargeable(queue + [ev])
  {
    if queue != [] {
      AllChargeableAppend(queue[1..], ev);
      assert (queue + [ev])[1..] == queue[1..] + [ev];
    }
  }

  /**
   * The invariant a charge point keeps while the interval is fixed: an idle
   * point has neither a countdown nor a queue, and an occupied point's
   * countdown lies between 0 and its vehicle's full duration, so the
   * duration divides the energy whenever the countdown is positive.
   */
  ghost predicate Valid(s: PointState, interval: int)
  {
    && s.maxChargeSpeed > 0.0
    && DividesHour(interval)
    && s.totalEnergyConsumed >= 0.0
    && AllChargeable(s.queue)
    && match s.pluggedVehicle
       case None => s.remainingChargeIntervals == 0 && s.queue == []
       case Some(ev) =>
         && Chargeable(ev)
         && 0 <= s.remainingChargeIntervals <= ChargeDurationInIntervals(ev, s.maxChargeSpeed, interval)
  }

  /** `plugVehicle`: an idle point starts charging the vehicle, an occupied one queues it at the tail. */
  function Plug(s: PointState, ev: EV, interval: int): (r: PointState)
    requires Valid(s, interval) && Chargeable(ev)
    ensures Valid(r, interval)
    ensures Occupied(r)
    ensures r.maxChargeSpeed == s.maxChargeSpeed && r.totalEnergyConsumed == s.totalEnergyConsumed
    ensures !Occupied(s) ==>
      && r.pluggedVehicle == Some(ev) && r.queue == []
      && r.remainingChargeIntervals == ChargeDurationInIntervals(ev, s.maxChargeSpeed, interval)
    ensures Occupied(s) ==>
      && r.pluggedVehicle == s.pluggedVehicle && r.queue == s.queue + [ev]
      && r.remainingChargeIntervals == s.remainingChargeIntervals
  {
    if !Occupied(s) then
      s.(pluggedVehicle := Some(ev),
         remainingChargeIntervals := ChargeDurationInIntervals(ev, s.maxChargeSpeed, interval))
    else
      AllChargeableAppend(s.queue, ev);
      s.(queue := s.queue + [ev])
  }

  /** The energy an occupied point delivers in one interval: the vehicle's energy spread over its duration. */
  function EnergyPerInterval(ev: EV, maxChargeSpeed: real, interval: int): (e: real)
    requires maxChargeSpeed > 0.0 && DividesHour(interval) && Chargeable(ev)
    requires ChargeDurationInIntervals(ev, maxChargeSpeed, interval) > 0
    ensures 0.0 <= e
  {
    EnergyRequired(ev) / ChargeDurationInIntervals(ev, maxChargeSpeed, interval) as real
  }

  /** `k` deliveries of `e`, one after the other. */
  function Repeated(k: nat, e: real): real
  {
    if k == 0 then 0.0 else Repeated(k - 1, e) + e
  }

  /** `k` deliveries of `e` add up to `k * e`. */
  lemma {:induction false} RepeatedIsProduct(k: nat, e: real)
    ensures Repeated(k, e) == k as real * e
  {
    if k > 0 {
      RepeatedIsProduct(k - 1, e);
      assert k as real * e == (k - 1) as real * e + e;
    }
  }

  /**
   * Over its full duration `d` a vehicle receives exactly its required
   * energy, `d` deliveries of the per-interval energy, and no single interval
   * delivers more than that.
   */
  lemma {:induction false} EnergyPerIntervalSpreads(ev: EV, maxChargeSpeed: real, interval: int, d: nat)
    requires maxChargeSpeed > 0.0 && DividesHour(interval) && Chargeable(ev)
    requires d == ChargeDurationInIntervals(ev, maxChargeSpeed, interval) > 0
    ensures Repeated(d, EnergyPerInterval(ev, maxChargeSpeed, interval)) == EnergyRequired(ev)
    ensures EnergyPerInterval(ev, maxChargeSpeed, interval) <= EnergyRequired(ev)
  {
    var e := EnergyPerInterval(ev, maxChargeSpeed, interval);
    assert d as real * e == EnergyRequired(ev);
    RepeatedIsProduct(d, e);
    NonNegativeProduct(d as real - 1.0, e);
  }

  lemma NonNegativeProduct(a: real, b: real)
    requires a >= 0.0 && b >= 0.0
    ensures a * b >= 0.0
  {
  }

  /**
   * `unPlugVehicle`: an idle point is left as it is; while the countdown is
   * positive the point delivers one interval's energy and counts down; at 0
   * the queue's head, if any, takes the point with a fresh countdown, and
   * with an empty queue the point falls idle.
   */
  function Unplug(s: PointState, interval: int): (r: PointState)
    requires Valid(s, interval)
    ensures Valid(r, interval)
    ensures r.maxChargeSpeed == s.maxChargeSpeed
    ensures r.totalEnergyConsumed >= s.totalEnergyConsumed
    ensures !Occupied(s) ==> r == s
    ensures Occupied(s) && s.remainingChargeIntervals > 0 ==>
      && r.pluggedVehicle == s.pluggedVehicle && r.queue == s.queue
      && r.remainingChargeIntervals == s.remainingChargeIntervals - 1
      && r.totalEnergyConsumed
         == s.totalEnergyConsumed + EnergyPerInterval(s.pluggedVehicle.value, s.maxChargeSpeed, interval)
    ensures Occupied(s) && s.remainingChargeIntervals == 0 ==>
      && r.totalEnergyConsumed == s.totalEnergyConsumed
      && (s.queue == [] ==> !Occupied(r) && r.remainingChargeIntervals == 0 && r.queue == [])
      && (s.queue != [] ==>
            && r.pluggedVehicle == Some(s.queue[0]) && r.queue == s.queue[1..]
            && r.remainingChargeIntervals == ChargeDurationInIntervals(s.queue[0], s.maxChargeSpeed, interval))
  {
    match s.pluggedVehicle
    case None => s
    case Some(ev) =>
      if s.remainingChargeIntervals > 0 then
        s.(totalEnergyConsumed := s.totalEnergyConsumed + EnergyPerInterval(ev, s.maxChargeSpeed, interval),
           remainingChargeIntervals := s.remainingChargeIntervals - 1)
      else if s.queue == [] then
        s.(pluggedVehicle := None)
      else
        s.(pluggedVehicle := Some(s.queue[0]),
           queue := s.queue[1..],
           remainingChargeIntervals := ChargeDurationInIntervals(s.queue[0], s.maxChargeSpeed, interval))
  }

  /** One call on a charge point, as the parking lot makes them: plug a vehicle in, or unplug. */
  datatype Event = Arrival(ev: EV) | Eviction

  predicate ChargeableArrivals(events: seq<Event>)
  {
    forall i :: 0 <= i < |events| && events[i].Arrival? ==> Chargeable(events[i].ev)
  }

  /** The number of unplug calls among `events`. */
  function Evictions(events: seq<Event>): (n: nat)
    ensures n <= |events|
  {
    if events == [] then 0
    else Evictions(events[..|events| - 1]) + (if events[|events| - 1].Eviction? then 1 else 0)
  }

  /** The vehicles plugged in by `events`, in call order. */
  function Arrivals(events: seq<Event>): (evs: seq<EV>)
    ensures |evs| <= |events|
  {
    if events == [] then []
    else Arrivals(events[..|events| - 1]) + (if events[|events| - 1].Arrival? then [events[|events| - 1].ev] else [])
  }

  /** The state after one plug or unplug call. */
  function ApplyOne(s: PointState, e: Event, interval: int): (r: PointState)
    requires Valid(s, interval) && (e.Arrival? ==> Chargeable(e.ev))
    ensures Valid(r, interval)
  {
    match e
    case Arrival(ev) => Plug(s, ev, interval)
    case Eviction => Unplug(s, interval)
  }

  /** The state after applying `events` in order to `s`. */
  function Apply(s: PointState, events: seq<Event>, interval: int): (r: PointState)
    requires Valid(s, interval) && ChargeableArrivals(events)
    ensures Valid(r, interval)
    ensures r.maxChargeSpeed == s.maxChargeSpeed
    ensures r.totalEnergyConsumed >= s.totalEnergyConsumed
  {
    if events == [] then s
    else ApplyOne(Apply(s, events[..|events| - 1], interval), events[|events| - 1], interval)
  }

  /**
   * While a vehicle charges with `m` intervals left, calls that unplug `k <= m`
   * times keep that vehicle plugged, count down by `k`, deliver `k` intervals'
   * energy, and queue the vehicles that arrived meanwhile behind the earlier
   * ones, in arrival order.
   */
  lemma {:induction false} ChargingProgress(s: PointState, ev: EV, events: seq<Event>, interval: int)
    requires Valid(s, interval) && ChargeableArrivals(events)
    requires s.pluggedVehicle == Some(ev)
    requires Evictions(events) <= s.remainingChargeIntervals
    ensures Apply(s, events, interval).pluggedVehicle == Some(ev)
    ensures Apply(s, events, interval).remainingChargeIntervals == s.remainingChargeIntervals - Evictions(events)
    ensures Apply(s, events, interval).queue == s.queue + Arrivals(events)
    ensures Evictions(events) > 0 ==>
      Apply(s, events, interval).totalEnergyConsumed
        == s.totalEnergyConsumed + Repeated(Evictions(events), EnergyPerInterval(ev, s.maxChargeSpeed, interval))
    ensures Evictions(events) == 0 ==> Apply(s, events, interval).totalEnergyConsumed == s.totalEnergyConsumed
  {
    if events != [] {
      var init := events[..|events| - 1];
      var last := events[|events| - 1];
      ChargeableArrivalsPrefix(events);
      ChargingProgress(s, ev, init, interval);
      var before := Apply(s, init, interval);
      var k := Evictions(init);
      assert Apply(s, events, interval) == ApplyOne(before, last, interval);
      ChargingOneEvent(before, ev, last, interval);
      if last.Eviction? {
        assert Repeated(k + 1, EnergyPerInterval(ev, s.maxChargeSpeed, interval))
          == Repeated(k, EnergyPerInterval(ev, s.maxChargeSpeed, interval)) + EnergyPerInterval(ev, s.maxChargeSpeed, interval);
      }
    }
  }

  /** Every prefix of a sequence of chargeable arrivals is one too. */
  lemma {:induction false} ChargeableArrivalsPrefix(events: seq<Event>)
    requires events != [] && ChargeableArrivals(events)
    ensures ChargeableArrivals(events[..|events| - 1])
    ensures events[|events| - 1].Arrival? ==> Chargeable(events[|events| - 1].ev)
  {
    var init := events[..|events| - 1];
    forall i | 0 <= i < |init| && init[i].Arrival? ensures Chargeable(init[i].ev) {
      assert init[i] == events[i];
    }
  }

  /**
   * While `ev` still has intervals to go, an unplug call charges it for one
   * interval and a plug call queues the newcomer.
   */
  lemma {:induction false} ChargingOneEvent(s: PointState, ev: EV, e: Event, interval: int)
    requires Valid(s, interval) && (e.Arrival? ==> Chargeable(e.ev))
    requires s.pluggedVehicle == Some(ev)
    requires e.Eviction? ==> s.remainingChargeIntervals > 0
    ensures ApplyOne(s, e, interval).pluggedVehicle == Some(ev)
    ensures ApplyOne(s, e, interval).maxChargeSpeed == s.maxChargeSpeed
    ensures ApplyOne(s, e, interval).remainingChargeIntervals
      == s.remainingChargeIntervals - (if e.Eviction? then 1 else 0)
    ensures ApplyOne(s, e, interval).queue == s.queue + (if e.Arrival? then [e.ev] else [])
    ensures ApplyOne(s, e, interval).totalEnergyConsumed
      == s.totalEnergyConsumed + (if e.Eviction? then EnergyPerInterval(ev, s.maxChargeSpeed, interval) else 0.0)
  {
  }

  /**
   * Energy accounting of one charging session: a vehicle of duration `d`
   * plugged into an idle point receives exactly its required energy over the
   * next `d` unplug calls (nothing when `d` is 0), whatever arrives
   * meanwhile; the next unplug call then hands the point to the first vehicle
   * that arrived meanwhile, or leaves it idle.
   */
  lemma {:induction false} SessionDeliversEnergyRequired(s: PointState, ev: EV, events: seq<Event>, interval: int)
    requires Valid(s, interval) && !Occupied(s) && Chargeable(ev) && ChargeableArrivals(events)
    requires Evictions(events) == ChargeDurationInIntervals(ev, s.maxChargeSpeed, interval)
    ensures Plug(s, ev, interval).pluggedVehicle == Some(ev)
    ensures Apply(Plug(s, ev, interval), events, interval).pluggedVehicle == Some(ev)
    ensures Apply(Plug(s, ev, interval), events, interval).totalEnergyConsumed
      == s.totalEnergyConsumed + (if Evictions(events) > 0 then EnergyRequired(ev) else 0.0)
    ensures Unplug(Apply(Plug(s, ev, interval), events, interval), interval).pluggedVehicle
      == if Arrivals(events) == [] then None else Some(Arrivals(events)[0])
  {
    var p := Plug(s, ev, interval);
    assert p.pluggedVehicle == Some(ev) && p.queue == [];
    ChargingProgress(p, ev, events, interval);
    var r := Apply(p, events, interval);
    assert r.remainingChargeIntervals == 0 && r.queue == Arrivals(events);
    var d := Evictions(events);
    if d > 0 {
      var epi := EnergyPerInterval(ev, s.maxChargeSpeed, interval);
      assert r.totalEnergyConsumed == s.totalEnergyConsumed + Repeated(d, epi);
      EnergyPerIntervalSpreads(ev, s.maxChargeSpeed, interval, d);
    } else {
      assert r.totalEnergyConsumed == s.totalEnergyConsumed;
    }
  }

  class ChargePoint {
    const maxChargeSpeed: real
    var pluggedVehicle: Option<EV>
    var remainingChargeIntervals: int
    var queue: seq<EV>
    var totalEnergyConsumed: real

    /** The charge point's fields as a value. */
    function State(): PointState
      reads this
    {
      PointState(maxChargeSpeed, pluggedVehicle, remainingChargeIntervals, queue, totalEnergyConsumed)
    }

    constructor (maxChargeSpeed: real)
      ensures State() == Idle(maxChargeSpeed)
    {
      this.maxChargeSpeed := maxChargeSpeed;
      pluggedVehicle := None;
      remainingChargeIntervals := 0;
      queue := [];
      totalEnergyConsumed := 0.0;
    }

    /** `isOccupied`: a vehicle is plugged in. */
    predicate IsOccupied()
      reads this
      ensures IsOccupied() <==> Occupied(State())
    {
      pluggedVehicle != None
    }

    method PlugVehicle(ev: EV, interval: int)
      requires Valid(State(), interval) && Chargeable(ev)
      modifies this
      ensures State() == Plug(old(State()), ev, interval)
      ensures Valid(State(), interval)
      ensures !old(IsOccupied()) ==>
        && pluggedVehicle == Some(ev)
        && remainingChargeIntervals == ChargeDurationInIntervals(ev, maxChargeSpeed, interval)
        && queue == old(queue) && totalEnergyConsumed == old(totalEnergyConsumed)
      ensures old(IsOccupied()) ==>
        && queue == old(queue) + [ev]
        && pluggedVehicle == old(pluggedVehicle)
        && remainingChargeIntervals == old(remainingChargeIntervals)
        && totalEnergyConsumed == old(totalEnergyConsumed)
    {
      if !IsOccupied() {
        pluggedVehicle := Some(ev);
        remainingChargeIntervals := ChargeDurationInIntervals(ev, maxChargeSpeed, interval);
      } else {
        queue := queue + [ev];
      }
    }

    method UnPlugVehicle(interval: int)
      requires Valid(State(), interval)
      modifies this
      ensures State() == Unplug(old(State()), interval)
      ensures Valid(State(), interval)
      ensures totalEnergyConsumed >= old(totalEnergyConsumed)
      ensures !old(IsOccupied()) ==> State() == old(State())
      ensures old(IsOccupied()) && old(remainingChargeIntervals) > 0 ==>
        && pluggedVehicle == old(pluggedVehicle) && queue == old(queue)
        && remainingChargeIntervals == old(remainingChargeIntervals) - 1
        && totalEnergyConsumed
           == old(totalEnergyConsumed) + EnergyPerInterval(old(pluggedVehicle).value, maxChargeSpeed, interval)
      ensures old(IsOccupied()) && old(remainingChargeIntervals) == 0 ==>
        && totalEnergyConsumed == old(totalEnergyConsumed)
        && (old(queue) == [] ==> pluggedVehicle == None && remainingChargeIntervals == 0 && queue == [])
        && (old(queue) != [] ==>
              && pluggedVehicle == Some(old(queue)[0]) && queue == old(queue)[1..]
              && remainingChargeIntervals == ChargeDurationInIntervals(old(queue)[0], maxChargeSpeed, interval))
    {
      if pluggedVehicle.None? {
        return;
      }
      var ev := pluggedVehicle.value;
      if remainingChargeIntervals > 0 {
        var energyPerInterval := EnergyRequired(ev) / ChargeDurationInIntervals(ev, maxChargeSpeed, interval) as real;
        totalEnergyConsumed := totalEnergyConsumed + energyPerInterval;
        remainingChargeIntervals := remainingChargeIntervals - 1;
      } else if queue == [] {
        pluggedVehicle := None;
      } else {
        var next := queue[0];
        queue := queue[1..];
        pluggedVehicle := Some(next);
        remainingChargeIntervals := ChargeDurationInIntervals(next, maxChargeSpeed, interval);
      }
    }
  }
}
