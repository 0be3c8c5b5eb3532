/** The growth latch both fruit kinds share: growth rises by a fixed rate per tick,
    is clamped to exactly 1.0 and then latches `fully_grown`. */
module Ripening {

  datatype Ripeness = Ripeness(growth: real, fullyGrown: bool)

  /** A fruit as it is created: no growth, not fully grown. */
  const Unripe := Ripeness(0.0, false)

  /** The reachable ripeness values: within [0, 1], and fully grown exactly at 1. */
  predicate Sound(r: Ripeness)
  {
    0.0 <= r.growth <= 1.0 && (r.fullyGrown <==> r.growth == 1.0)
  }

  /** One call of `Fruit.update` with growth rate `rate`: from a reachable value and a
      positive rate it keeps growth in [0, 1] with the latch tied to growth 1, never
      lowers growth, and leaves a fully grown fruit as it is. */
  function Ripen(r: Ripeness, rate: real): (q: Ripeness)
    ensures Sound(r) && rate > 0.0 ==> Sound(q) && q.growth >= r.growth
    ensures r.fullyGrown ==> q == r
  {
    if r.fullyGrown then r
    else if r.growth + rate >= 1.0 then Ripeness(1.0, true)
    else Ripeness(r.growth + rate, false)
  }

  /** `n` successive ticks. */
  function RipenTimes(r: Ripeness, rate: real, n: nat): Ripeness
  {
    if n == 0 then r else Ripen(RipenTimes(r, rate, n - 1), rate)
  }

  function MinReal(a: real, b: real): real
  {
    if a <= b then a else b
  }

  /** After `n` ticks from creation, growth is min(n * rate, 1) and the fruit is fully
      grown exactly when n * rate >= 1. */
  lemma {:induction false} RipenFromUnripe(rate: real, n: nat)
    requires rate > 0.0
    ensures RipenTimes(Unripe, rate, n) == Ripeness(MinReal(n as real * rate, 1.0), n as real * rate >= 1.0)
  {
    if n > 0 {
      RipenFromUnripe(rate, n - 1);
      assert n as real * rate == (n - 1) as real * rate + rate;
    }
  }

  /** Once fully grown, any number of further ticks changes nothing. */
  lemma {:induction false} RipeIsStable(r: Ripeness, rate: real, n: nat)
    requires r.fullyGrown
    ensures RipenTimes(r, rate, n) == r
  {
    if n > 0 {
      RipeIsStable(r, rate, n - 1);
    }
  }
}
