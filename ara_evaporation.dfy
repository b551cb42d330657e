/** ARA's pheromone evaporation: the four configuration values `init`
    stores, and the linear and exponential decay functions that read them.
    Floating-point values are modelled as exact reals and the exponential
    decay only over whole numbers of intervals. */
module AraEvaporation {
  import opened CTypes

  /** `value * pow(factor, n)` for a whole exponent `n`: the value
      multiplied by `factor`, `n` times over. */
  function Decayed(value: real, factor: real, n: nat): real
  {
    if n == 0 then value else factor * Decayed(value, factor, n - 1)
  }

  /** With a non-negative value and a factor in [0, 1], each further
      multiplication keeps the value non-negative and never increases it. */
  lemma {:induction false} DecayedBounds(value: real, factor: real, n: nat)
    requires value >= 0.0 && 0.0 <= factor <= 1.0
    ensures 0.0 <= Decayed(value, factor, n + 1) <= Decayed(value, factor, n) <= value
  {
    if n > 0 {
      DecayedBounds(value, factor, n - 1);
    }
    var y := Decayed(value, factor, n);
    assert 0.0 <= y <= value;
    assert Decayed(value, factor, n + 1) == factor * y;
    assert 0.0 <= factor * y <= y by {
      assert y * (1.0 - factor) >= 0.0;
    }
  }

  /** The static configuration of evaporation.c and the two decay
      functions reading it. */
  class Evaporation {
    var factor: real
    var threshold: real
    /** `time_interval`, in milliseconds. */
    var interval: nat
    /** `evaporation_type`: stored, read by neither decay function. */
    var kind: byte

    /** Static storage starts zeroed. */
    constructor ()
      ensures factor == 0.0 && threshold == 0.0 && interval == 0 && kind == 0
    {
      factor := 0.0;
      threshold := 0.0;
      interval := 0;
      kind := 0;
    }

    /** `ara_evaporation_init`: overwrites all four configuration values. */
    method Init(newFactor: real, newThreshold: real, newInterval: nat, newKind: byte)
      modifies this
      ensures factor == newFactor && threshold == newThreshold
      ensures interval == newInterval && kind == newKind
    {
      factor := newFactor;
      threshold := newThreshold;
      interval := newInterval;
      kind := newKind;
    }

    /** `ara_evaporation_linear`: no time, no change; otherwise the value
        drops by `factor` per elapsed interval, and a result strictly below
        the threshold becomes 0. */
    function Linear(oldValue: real, elapsed: nat): (r: real)
      reads this
      requires elapsed == 0 || interval > 0
      ensures elapsed == 0 ==> r == oldValue
      ensures elapsed > 0 ==> r == 0.0 || r >= threshold
      ensures elapsed > 0 && oldValue - factor * (elapsed as real / interval as real) >= threshold ==>
                r == oldValue - factor * (elapsed as real / interval as real)
      ensures elapsed > 0 && oldValue - factor * (elapsed as real / interval as real) < threshold ==>
                r == 0.0
      ensures factor >= 0.0 && oldValue >= 0.0 ==> r <= oldValue
    {
      if elapsed == 0 then oldValue
      else
        var multiplicator := elapsed as real / interval as real;
        assert factor >= 0.0 ==> factor * multiplicator >= 0.0;
        var newValue := -1.0 * factor * multiplicator + oldValue;
        if newValue < threshold then 0.0 else newValue
    }

    /** `ara_evaporation_exponential` over a whole number of intervals: the
        value is multiplied by `factor` once per elapsed interval, and a
        result strictly below the threshold becomes 0. */
    function Exponential(oldValue: real, elapsed: nat): (r: real)
      reads this
      requires elapsed == 0 || (interval > 0 && elapsed % interval == 0)
      ensures elapsed == 0 ==> r == oldValue
      ensures elapsed > 0 ==> r == 0.0 || r >= threshold
    {
      if elapsed == 0 then oldValue
      else
        var newValue := Decayed(oldValue, factor, elapsed / interval);
        if newValue < threshold then 0.0 else newValue
    }

    /** Exponential decay over `n` whole intervals gives the old value times
        the `n`-th power of the factor, or 0 when that is below the
        threshold. */
    lemma {:induction false} ExponentialOverWholeIntervals(oldValue: real, n: nat, elapsed: nat)
      requires interval > 0 && n >= 1 && elapsed == n * interval
      ensures elapsed % interval == 0
      ensures Decayed(oldValue, factor, n) >= threshold ==>
                Exponential(oldValue, elapsed) == Decayed(oldValue, factor, n)
      ensures Decayed(oldValue, factor, n) < threshold ==> Exponential(oldValue, elapsed) == 0.0
    {
      WholeIntervals(n, interval);
      AtLeastOnce(n, interval);
    }

    /** With a factor in [0, 1], exponential decay never increases a
        non-negative value. */
    lemma ExponentialNeverIncreases(oldValue: real, elapsed: nat)
      requires elapsed == 0 || (interval > 0 && elapsed % interval == 0)
      requires 0.0 <= factor <= 1.0 && oldValue >= 0.0
      ensures 0.0 <= Exponential(oldValue, elapsed) <= oldValue
    {
      if elapsed > 0 {
        DecayedBounds(oldValue, factor, elapsed / interval);
      }
    }

    /** `n` successive single-interval exponential decays. */
    function Iterated(oldValue: real, n: nat): real
      reads this
      requires interval > 0
    {
      if n == 0 then oldValue else Exponential(Iterated(oldValue, n - 1), interval)
    }

    /** One more interval of decay after `m` whole intervals is the same as
        decaying over `m + 1` intervals at once. */
    lemma {:induction false} ExponentialStep(oldValue: real, m: nat, elapsed: nat)
      requires interval > 0 && 0.0 <= factor <= 1.0 && oldValue >= 0.0
      requires m >= 1 && elapsed == m * interval
      ensures elapsed % interval == 0 && (elapsed + interval) % interval == 0
      ensures Exponential(Exponential(oldValue, elapsed), interval) ==
              Exponential(oldValue, elapsed + interval)
    {
      ExponentialOverWholeIntervals(oldValue, m, elapsed);
      var once := Exponential(oldValue, elapsed);
      ExponentialOverWholeIntervals(once, 1, interval);
      NextInterval(m, interval);
      ExponentialOverWholeIntervals(oldValue, m + 1, elapsed + interval);
      ClampedStep(oldValue, factor, threshold, m);
    }

    /** With a factor in [0, 1], one decay over `n` intervals equals `n`
        successive single-interval decays, the clamp included. */
    lemma {:induction false} OneStepEqualsIterated(oldValue: real, n: nat)
      requires interval > 0 && 0.0 <= factor <= 1.0 && oldValue >= 0.0
      requires n >= 1
      ensures (n * interval) % interval == 0
      ensures Iterated(oldValue, n) == Exponential(oldValue, n * interval)
    {
      WholeIntervals(n, interval);
      if n > 1 {
        WholeIntervals(n - 1, interval);
        OneStepEqualsIterated(oldValue, n - 1);
        ExponentialStep(oldValue, n - 1, (n - 1) * interval);
        assert (n - 1) * interval + interval == n * interval;
      }
    }
  }

  /** A whole number of intervals divides exactly. */
  lemma WholeIntervals(m: nat, d: nat)
    requires d > 0
    ensures (m * d) % d == 0 && (m * d) / d == m
  {
    var x := m * d;
    var k := m - x / d;
    assert k * d == x % d by {
      assert x == d * (x / d) + x % d;
      assert k * d == m * d - (x / d) * d;
    }
    OnlyZeroTimesBelow(k, d);
  }

  /** Clamping after `m` multiplications and then multiplying once more and
      clamping again gives the clamp of `m + 1` multiplications. */
  lemma ClampedStep(value: real, factor: real, threshold: real, m: nat)
    requires value >= 0.0 && 0.0 <= factor <= 1.0
    ensures var before := Decayed(value, factor, m);
            var once := if before < threshold then 0.0 else before;
            var again := Decayed(once, factor, 1);
            var after := Decayed(value, factor, m + 1);
            (if again < threshold then 0.0 else again) == (if after < threshold then 0.0 else after)
  {
    DecayedBounds(value, factor, m);
    var before := Decayed(value, factor, m);
    var once := if before < threshold then 0.0 else before;
    assert Decayed(once, factor, 1) == factor * once;
  }

  /** Arithmetic step for `ExponentialStep`: m intervals and one more are
      m + 1 intervals. */
  lemma NextInterval(m: nat, d: nat)
    ensures m * d + d == (m + 1) * d
  {
  }

  /** The only integer multiple of `d` lying in [0, d) is 0; used by
      `WholeIntervals`. */
  lemma OnlyZeroTimesBelow(k: int, d: nat)
    requires d > 0 && 0 <= k * d < d
    ensures k == 0
  {
    if k >= 1 {
      AtLeastOnce(k, d);
    }
  }

  /** At least one whole interval spans at least one interval; used by
      `OnlyZeroTimesBelow` and `ExponentialOverWholeIntervals`. */
  lemma {:induction false} AtLeastOnce(k: nat, d: nat)
    requires k >= 1
    ensures k * d >= d
    decreases k
  {
    if k > 1 {
      AtLeastOnce(k - 1, d);
      assert k * d == (k - 1) * d + d;
    }
  }

  /** The linear unit test: factor 0.25, threshold 0.75, interval 2000 ms,
      starting from 1.5; no time leaves 1.5, then each interval removes
      0.25, and 0.75 is kept because it is not below the threshold. */
  method LinearScenario() returns (trace: seq<real>)
    ensures trace == [1.5, 1.5, 1.25, 1.0, 0.75]
  {
    var e := new Evaporation();
    e.Init(0.25, 0.75, 2000, 0);
    var pheromone := 1.5;
    trace := [pheromone];
    pheromone := e.Linear(pheromone, 0);
    trace := trace + [pheromone];
    pheromone := e.Linear(pheromone, 2000);
    trace := trace + [pheromone];
    pheromone := e.Linear(pheromone, 2000);
    trace := trace + [pheromone];
    pheromone := e.Linear(pheromone, 2000);
    trace := trace + [pheromone];
  }

  /** The exponential decay with factor 0.9, threshold 0.75 and interval
      2000 ms, starting from 1: each interval multiplies by 0.9 until
      0.729 falls below the threshold and becomes 0. */
  method ExponentialScenario() returns (trace: seq<real>)
    ensures trace == [1.0, 1.0, 0.9, 0.81, 0.0]
  {
    var e := new Evaporation();
    e.Init(0.9, 0.75, 2000, 0);
    var pheromone := 1.0;
    trace := [pheromone];
    pheromone := e.Exponential(pheromone, 0);
    trace := trace + [pheromone];
    e.ExponentialOverWholeIntervals(pheromone, 1, 2000);
    pheromone := e.Exponential(pheromone, 2000);
    trace := trace + [pheromone];
    e.ExponentialOverWholeIntervals(pheromone, 1, 2000);
    pheromone := e.Exponential(pheromone, 2000);
    trace := trace + [pheromone];
    e.ExponentialOverWholeIntervals(pheromone, 1, 2000);
    pheromone := e.Exponential(pheromone, 2000);
    trace := trace + [pheromone];
  }

  /** The sequential-versus-continuous unit test: factor 0.7, threshold 1,
      interval 1000 ms; decaying 123 once over ten intervals equals ten
      single-interval decays. */
  method SequentialScenario() returns (evaporationInOneStep: real, evaporationInMultipleSteps: real)
    ensures evaporationInOneStep == evaporationInMultipleSteps
  {
    var e := new Evaporation();
    e.Init(0.7, 1.0, 1000, 0);
    evaporationInOneStep := e.Exponential(123.0, 10 * 1000);
    evaporationInMultipleSteps := 123.0;
    var i := 0;
    while i < 10
      invariant 0 <= i <= 10
      invariant evaporationInMultipleSteps == e.Iterated(123.0, i)
    {
      evaporationInMultipleSteps := e.Exponential(evaporationInMultipleSteps, 1000);
      i := i + 1;
    }
    e.OneStepEqualsIterated(123.0, 10);
  }
}
