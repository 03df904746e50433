/**
 * An electric vehicle (packages/simulation-lib/ev.ts): an immutable value
 * holding the distance to recharge and the consumption per 100 km, with the
 * energy it needs and the number of simulation intervals charging takes.
 */
module Vehicles {

  datatype EV = EV(chargingDemand: real, consumptionPer100Km: real)

  /** An interval length the simulator accepts and uses: a positive divisor of 60 minutes. */
  predicate DividesHour(interval: int)
  {
    interval > 0 && 60 % interval == 0
  }

  /** Energy needed to recharge the demanded distance: the consumption per km times the distance. */
  function EnergyRequired(ev: EV): (e: real)
    ensures ev.chargingDemand >= 0.0 && ev.consumptionPer100Km >= 0.0 ==> e >= 0.0
  {
    ev.chargingDemand * (ev.consumptionPer100Km / 100.0)
  }

  /**
   * Charge duration in intervals: the charge time is first floored to whole
   * hours at the given speed, then converted to intervals.  It is positive
   * exactly when the energy reaches one hour at full speed.
   */
  function ChargeDurationInIntervals(ev: EV, maxChargeSpeed: real, interval: int): (d: int)
    requires maxChargeSpeed > 0.0
    requires DividesHour(interval)
    ensures d > 0 <==> EnergyRequired(ev) >= maxChargeSpeed
    ensures d == 0 <==> 0.0 <= EnergyRequired(ev) < maxChargeSpeed
    ensures EnergyRequired(ev) >= 0.0 ==> d >= 0
  {
    var chargeTime := (EnergyRequired(ev) / maxChargeSpeed).Floor;
    FloorScaled(EnergyRequired(ev), maxChargeSpeed);
    var perHour := 60 / interval;
    ProductSign(chargeTime, perHour);
    chargeTime * perHour
  }

  /**
   * The duration is the floored charge time in hours, times 60, over the
   * interval, and it covers a whole number `h` of hours: `h` hours at full
   * speed do not exceed the energy required, while `h + 1` hours would.
   */
  lemma ChargeDurationIsWholeHours(ev: EV, maxChargeSpeed: real, interval: int)
    requires maxChargeSpeed > 0.0
    requires DividesHour(interval)
    ensures ChargeDurationInIntervals(ev, maxChargeSpeed, interval) * interval
      == (EnergyRequired(ev) / maxChargeSpeed).Floor * 60
    ensures (ChargeDurationInIntervals(ev, maxChargeSpeed, interval) * interval) % 60 == 0
    ensures var h := (ChargeDurationInIntervals(ev, maxChargeSpeed, interval) * interval) / 60;
      h as real * maxChargeSpeed <= EnergyRequired(ev) < (h + 1) as real * maxChargeSpeed
  {
    var chargeTime := (EnergyRequired(ev) / maxChargeSpeed).Floor;
    FloorScaled(EnergyRequired(ev), maxChargeSpeed);
    IntervalsPerHour(chargeTime, interval);
  }

  /** Scaling by a positive whole factor keeps the sign. */
  lemma ProductSign(a: int, k: int)
    requires k >= 1
    ensures a * k > 0 <==> a > 0
    ensures a * k == 0 <==> a == 0
  {
    if a > 0 {
      assert a * k == a + a * (k - 1);
      assert a * (k - 1) >= 0;
    } else if a < 0 {
      assert a * k == a + a * (k - 1);
      assert a * (k - 1) <= 0;
    }
  }

  /** `h` hours make `h * (60 / interval)` intervals of `interval` minutes. */
  lemma IntervalsPerHour(h: int, interval: int)
    requires DividesHour(interval)
    ensures (h * (60 / interval)) * interval == h * 60
    ensures ((h * (60 / interval)) * interval) / 60 == h
  {
    var k := 60 / interval;
    assert k * interval == 60;
    calc {
      (h * k) * interval;
      h * (k * interval);
      h * 60;
    }
  }

  /** The floored ratio of `e` to `speed` is the whole number of speeds that fit in `e`. */
  lemma FloorScaled(e: real, speed: real)
    requires speed > 0.0
    ensures (e / speed).Floor as real * speed <= e < ((e / speed).Floor + 1) as real * speed
    ensures (e / speed).Floor > 0 <==> e >= speed
    ensures (e / speed).Floor == 0 <==> 0.0 <= e < speed
  {
    var h := (e / speed).Floor;
    var q := e / speed;
    assert h as real <= q < h as real + 1.0;
    assert q * speed == e;
    var gap := h as real + 1.0 - q;
    assert gap > 0.0;
    assert gap * speed > 0.0;
    assert (h + 1) as real * speed == q * speed + gap * speed;
    assert e < (h + 1) as real * speed;
    assert h + 1 == (e / speed).Floor + 1;
    if e >= speed {
      assert (q - 1.0) * speed >= 0.0;
    } else if e >= 0.0 {
      assert (1.0 - q) * speed > 0.0;
      assert q >= 0.0;
    } else {
      assert q < 0.0;
    }
  }
}
