/** The dollar-risk position sizing of scripts/ea_shim.py, over reals. */
module Sizing {
  import opened Prelude

  /** What the broker says about a symbol. */
  datatype Specs = Specs(tickValue: real, tickSize: real, volumeStep: real, volumeMin: real, volumeMax: real)

  const DIGITS := 100000000.0

  /** `k` whole steps. */
  function Steps(k: int, step: real): (v: real) {
    k as real * step
  }

  /** Python's `round(x, 8)`, a tie going to the even neighbour. */
  function Round8(x: real): (r: real) {
    var n := (x * DIGITS).Floor;
    var rest := x * DIGITS - n as real;
    (if rest < 0.5 || (rest == 0.5 && n % 2 == 0) then n else n + 1) as real / DIGITS
  }

  predicate Applies(info: Option<Specs>, ref: real, sl: real, risk: real) {
    && risk > 0.0 && sl > 0.0 && ref > 0.0
    && info.Some? && info.value.tickValue > 0.0 && info.value.tickSize > 0.0
    && ref != sl
  }

  /** What one lot loses between the reference price and the stop. */
  function LossPerLot(info: Specs, ref: real, sl: real): (r: real)
    requires info.tickSize > 0.0
  {
    Abs(ref - sl) / info.tickSize * info.tickValue
  }

  function Step(info: Specs): (r: real) {
    if info.volumeStep == 0.0 then 0.01 else info.volumeStep
  }

  lemma LossPositive(info: Specs, ref: real, sl: real)
    requires info.tickValue > 0.0 && info.tickSize > 0.0 && ref != sl
    ensures LossPerLot(info, ref, sl) > 0.0
  {
    var d := Abs(ref - sl) / info.tickSize;
    assert d > 0.0;
    Positive(d, info.tickValue);
  }

  lemma Positive(a: real, b: real)
    requires a > 0.0 && b > 0.0
    ensures a * b > 0.0
  {
  }

  /** `sized_volume`: the lot sent, the request where sizing cannot run, 0 to reject. */
  function SizedVolume(info: Option<Specs>, ref: real, sl: real, requested: real, risk: real): (r: real) {
    if !Applies(info, ref, sl, risk) then requested
    else
      LossPositive(info.value, ref, sl);
      var step := Step(info.value);
      var vol := Round8(Steps((risk / LossPerLot(info.value, ref, sl) / step).Floor, step));
      if vol < info.value.volumeMin then 0.0
      else if info.value.volumeMax < vol then info.value.volumeMax else vol
  }

  // ---------------------------------------------------------------- what it means

  /** A lot loses the tick value for every tick between the price and the stop. */
  lemma LossIsTicks(info: Specs, ref: real, sl: real)
    requires info.tickSize > 0.0
    ensures LossPerLot(info, ref, sl) * info.tickSize == (if ref >= sl then ref - sl else sl - ref) * info.tickValue
  {
    var ticks := Abs(ref - sl) / info.tickSize;
    assert ticks * info.tickSize == Abs(ref - sl);
    assert ticks * info.tickValue * info.tickSize == ticks * info.tickSize * info.tickValue;
  }

  /** Without a budget, a stop, a price, a distance between the two or the instrument's tick, the lot requested
      is the lot sent. */
  lemma RequestedUnsized(info: Option<Specs>, ref: real, sl: real, requested: real, risk: real)
    requires || risk <= 0.0 || sl <= 0.0 || ref <= 0.0 || ref == sl || info.None?
             || info.value.tickValue <= 0.0 || info.value.tickSize <= 0.0
    ensures SizedVolume(info, ref, sl, requested, risk) == requested
  {
  }

  /** And otherwise the request plays no part; the step is a hundredth of a lot where the broker gives none. */
  lemma SizedWhateverRequested(info: Specs, ref: real, sl: real, requested: real, other: real, risk: real)
    requires risk > 0.0 && sl > 0.0 && ref > 0.0 && ref != sl && info.tickValue > 0.0 && info.tickSize > 0.0
    ensures SizedVolume(Some(info), ref, sl, requested, risk) == SizedVolume(Some(info), ref, sl, other, risk)
    ensures info.volumeStep == 0.0 ==> Step(info) == 0.01
    ensures info.volumeStep != 0.0 ==> Step(info) == info.volumeStep
  {
  }

  /** Lots that are whole steps. */
  ghost predicate OnGrid(v: real, step: real) {
    exists k :: v == Steps(k, step)
  }

  /** A sane instrument: a step of whole 1e-8 lots, a positive minimum of whole steps, a maximum above it. */
  ghost predicate Sane(info: Specs) {
    && info.volumeStep >= 0.0 && OnGrid(Step(info), 1.0 / DIGITS)
    && OnGrid(info.volumeMin, Step(info)) && 0.0 < info.volumeMin <= info.volumeMax
  }

  /** A lot the broker takes that loses no more than the budget at the stop. */
  ghost predicate Affordable(info: Specs, ref: real, sl: real, risk: real, v: real)
    requires info.tickSize > 0.0
  {
    && info.volumeMin <= v <= info.volumeMax
    && (OnGrid(v, Step(info)) || v == info.volumeMax)
    && v * LossPerLot(info, ref, sl) <= risk
  }

  lemma Round8Exact(n: int)
    ensures Round8(Steps(n, 1.0 / DIGITS)) == Steps(n, 1.0 / DIGITS)
  {
    assert Steps(n, 1.0 / DIGITS) * DIGITS == n as real;
  }

  lemma StepsOfSteps(k: int, m: int, unit: real)
    ensures Steps(k, Steps(m, unit)) == Steps(k * m, unit)
  {
    CastMul(k, m);
    Assoc(k as real, m as real, unit);
  }

  lemma Assoc(a: real, b: real, c: real)
    ensures a * b * c == a * (b * c)
  {
  }

  lemma CastMul(k: int, m: int)
    ensures (k * m) as real == k as real * m as real
  {
  }

  /** Dividing the budget twice and rounding down counts exactly the steps it pays for. */
  lemma StepsPaid(risk: real, loss: real, step: real, k: int)
    requires loss > 0.0 && step > 0.0
    ensures k <= (risk / loss / step).Floor <==> Steps(k, step) * loss <= risk
  {
    var budget, lot := risk / loss, Steps(k, step);
    var q := budget / step;
    FloorIs(k, q);
    assert k as real <= q <==> lot <= budget by {
      Scale(k as real, q, step);
      DivMul(budget, step);
    }
    assert lot <= budget <==> lot * loss <= risk by {
      Scale(lot, budget, loss);
      DivMul(risk, loss);
    }
  }

  lemma FloorIs(k: int, q: real)
    ensures k <= q.Floor <==> k as real <= q
  {
  }

  lemma DivMul(a: real, b: real)
    requires b > 0.0
    ensures a / b * b == a
  {
  }

  lemma Scale(a: real, b: real, c: real)
    requires c > 0.0
    ensures a <= b <==> a * c <= b * c
  {
    if a <= b { Monotone(a, b, c); } else { StrictlyMonotone(b, a, c); }
  }

  lemma Monotone(a: real, b: real, c: real)
    requires a <= b && c > 0.0
    ensures a * c <= b * c
  {
  }

  lemma StrictlyMonotone(a: real, b: real, c: real)
    requires a < b && c > 0.0
    ensures a * c < b * c
  {
  }

  /** Sizing rejects exactly when the minimum lot is already over the budget. */
  lemma RejectedIff(info: Specs, ref: real, sl: real, requested: real, risk: real)
    requires Applies(Some(info), ref, sl, risk) && Sane(info)
    ensures SizedVolume(Some(info), ref, sl, requested, risk) <= 0.0 <==>
              info.volumeMin * LossPerLot(info, ref, sl) > risk
  {
    var units := Unrounded(info, ref, sl, requested, risk);
    MinimumReached(info, ref, sl, risk, units);
  }

  /** Otherwise the lot is affordable, and no affordable lot of whole steps is larger. */
  lemma LargestAffordable(info: Specs, ref: real, sl: real, requested: real, risk: real)
    requires Applies(Some(info), ref, sl, risk) && Sane(info)
    requires info.volumeMin * LossPerLot(info, ref, sl) <= risk
    ensures var v := SizedVolume(Some(info), ref, sl, requested, risk);
            && Affordable(info, ref, sl, risk, v)
            && forall w :: Affordable(info, ref, sl, risk, w) && OnGrid(w, Step(info)) ==> w <= v
  {
    hide SizedVolume, LossPerLot, Step, Sane, Steps;
    var units := Unrounded(info, ref, sl, requested, risk);
    var step, loss := Step(info), LossPerLot(info, ref, sl);
    var vol, v := Steps(units, step), SizedVolume(Some(info), ref, sl, requested, risk);
    StepsPaid(risk, loss, step, units);
    MinimumReached(info, ref, sl, risk, units);
    Monotone(v, vol, loss);
    SaneBounds(info);
    forall w | Affordable(info, ref, sl, risk, w) && OnGrid(w, step) ensures w <= v {
      var k :| w == Steps(k, step);
      StepsPaid(risk, loss, step, k);
      MoreSteps(k, units, step);
    }
  }

  /** The maximum lot itself is passed over exactly when the budget pays for it
      but not for the next whole step: then it is off the grid. */
  lemma MaximumMissedIff(info: Specs, ref: real, sl: real, requested: real, risk: real)
    requires Applies(Some(info), ref, sl, risk) && Sane(info)
    requires info.volumeMin * LossPerLot(info, ref, sl) <= risk
    ensures LossPerLot(info, ref, sl) > 0.0 && Step(info) > 0.0
    ensures var v := SizedVolume(Some(info), ref, sl, requested, risk);
            var paid := Steps((risk / LossPerLot(info, ref, sl) / Step(info)).Floor, Step(info));
            && ((forall w :: Affordable(info, ref, sl, risk, w) ==> w <= v)
                <==> !(paid < info.volumeMax && info.volumeMax * LossPerLot(info, ref, sl) <= risk))
            && (v < info.volumeMax && info.volumeMax * LossPerLot(info, ref, sl) <= risk ==>
              !OnGrid(info.volumeMax, Step(info)))
  {
    hide SizedVolume, LossPerLot, Step, Sane, Steps, OnGrid;
    LargestAffordable(info, ref, sl, requested, risk);
    var units := Unrounded(info, ref, sl, requested, risk);
    MinimumReached(info, ref, sl, risk, units);
    SaneBounds(info);
    assert info.volumeMax * LossPerLot(info, ref, sl) <= risk ==> Affordable(info, ref, sl, risk, info.volumeMax);
  }

  /** For one: with a step of 1 and a maximum of 1.5, a budget for 1.75 lots sends 1. */
  lemma MaximumCanBeMissed(info: Specs, ref: real, sl: real, requested: real, risk: real)
    requires Applies(Some(info), ref, sl, risk) && LossPerLot(info, ref, sl) == 1.0 && risk == 1.75
    requires info.volumeStep == 1.0 && info.volumeMin == 1.0 && info.volumeMax == 1.5
    ensures Sane(info) && Affordable(info, ref, sl, risk, 1.5)
    ensures SizedVolume(Some(info), ref, sl, requested, risk) == 1.0
  {
    hide SizedVolume, LossPerLot, Applies;
    assert Steps(100000000, 1.0 / DIGITS) == 1.0 && Steps(1, 1.0) == 1.0;
    var units := Unrounded(info, ref, sl, requested, risk);
    assert units == 1;
  }

  lemma MoreSteps(j: int, k: int, step: real)
    requires step > 0.0
    ensures j <= k <==> Steps(j, step) <= Steps(k, step)
  {
    Scale(j as real, k as real, step);
  }

  lemma SaneBounds(info: Specs)
    requires Sane(info)
    ensures info.volumeMin <= info.volumeMax
  {
  }

  /** The minimum lot is reached exactly when it is paid for. */
  lemma MinimumReached(info: Specs, ref: real, sl: real, risk: real, units: int)
    requires Applies(Some(info), ref, sl, risk) && Sane(info)
    requires LossPerLot(info, ref, sl) > 0.0 && Step(info) > 0.0
    requires units == (risk / LossPerLot(info, ref, sl) / Step(info)).Floor
    ensures Steps(units, Step(info)) < info.volumeMin <==> info.volumeMin * LossPerLot(info, ref, sl) > risk
  {
    hide LossPerLot, Step, Steps;
    var k :| info.volumeMin == Steps(k, Step(info));
    StepsPaid(risk, LossPerLot(info, ref, sl), Step(info), k);
    MoreSteps(k, units, Step(info));
  }

  /** On a sane instrument the rounding changes nothing. */
  lemma Unrounded(info: Specs, ref: real, sl: real, requested: real, risk: real) returns (units: int)
    requires Applies(Some(info), ref, sl, risk) && Sane(info)
    ensures LossPerLot(info, ref, sl) > 0.0 && Step(info) > 0.0
    ensures units == (risk / LossPerLot(info, ref, sl) / Step(info)).Floor
    ensures SizedVolume(Some(info), ref, sl, requested, risk) ==
            var vol := Steps(units, Step(info));
            if vol < info.volumeMin then 0.0 else if info.volumeMax < vol then info.volumeMax else vol
  {
    hide Round8, LossPerLot, Steps;
    LossPositive(info, ref, sl);
    var step := Step(info);
    units := (risk / LossPerLot(info, ref, sl) / step).Floor;
    var m :| step == Steps(m, 1.0 / DIGITS);
    StepsOfSteps(units, m, 1.0 / DIGITS);
    Round8Exact(units * m);
  }
}
