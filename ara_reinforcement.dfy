/** ARA's linear pheromone reinforcement: one stored increment `delta`,
    set by `init` and added by `compute`. Floating-point values are
    modelled as exact reals. */
module AraReinforcement {

  class Reinforcement {
    /** The static `delta` of reinforcement.c. */
    var delta: real

    /** Static storage starts at 0. */
    constructor ()
      ensures delta == 0.0
    {
      delta := 0.0;
    }

    /** `ara_reinforcement_init`: replaces the stored increment. */
    method Init(deltaPhi: real)
      modifies this
      ensures delta == deltaPhi
    {
      delta := deltaPhi;
    }

    /** `ara_reinforcement_linear_compute`: the old value raised by the
        stored increment; it reads the state and changes none of it. */
    function LinearCompute(oldValue: real): (r: real)
      reads this
      ensures r - oldValue == delta
    {
      oldValue + delta
    }

    /** `n` successive reinforcements. */
    function Repeated(oldValue: real, n: nat): real
      reads this
    {
      if n == 0 then oldValue else LinearCompute(Repeated(oldValue, n - 1))
    }

    /** Reinforcing `n` times raises a value by `n` increments. */
    lemma {:induction false} RepeatedAddsMultiple(oldValue: real, n: nat)
      ensures Repeated(oldValue, n) == oldValue + n as real * delta
    {
      if n > 0 {
        RepeatedAddsMultiple(oldValue, n - 1);
        assert (n - 1) as real * delta + delta == n as real * delta;
      }
    }
  }

  /** Before any `init`, reinforcement leaves every value as it is. */
  method ComputeBeforeInit(value: real) returns (r: real)
    ensures r == value
  {
    var reinforcement := new Reinforcement();
    r := reinforcement.LinearCompute(value);
  }

  /** The unit test: after `init(1.2)`, reinforcing 5.1 gives 6.3. */
  method LinearScenario() returns (r: real)
    ensures r == 6.3
  {
    var reinforcement := new Reinforcement();
    reinforcement.Init(1.2);
    r := reinforcement.LinearCompute(5.1);
  }

  /** A later `init` replaces the earlier increment rather than adding to it. */
  method ReinitScenario(first: real, second: real, value: real) returns (r: real)
    ensures r == value + second
  {
    var reinforcement := new Reinforcement();
    reinforcement.Init(first);
    reinforcement.Init(second);
    r := reinforcement.LinearCompute(value);
  }
}
