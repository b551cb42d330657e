/** ARA's stochastic forwarding: a roulette-wheel choice of the next hop,
    where each next hop is chosen with probability proportional to its
    pheromone value. Floating-point values are modelled as exact reals;
    the two `malloc` results and the random number are parameters. */
module AraForwarding {
  import opened CTypes
  import opened AraHelper
  import opened AraRoutingTable

  /** The largest next-hop count an 8-bit `size` and loop index can hold. */
  const MaxNextHops: nat := 0xFF

  /** The pheromone values of the entry's next hops, in list order. */
  function Pheromones(entry: RoutingEntry): (p: seq<real>)
    ensures |p| == entry.Size()
    ensures forall i :: 0 <= i < |p| ==> p[i] == entry.nextHops[i].phi
  {
    seq(entry.Size(), i requires 0 <= i < entry.Size() => entry.nextHops[i].phi)
  }

  /** The normalised pheromone values: each divided by their total. */
  function Probabilities(entry: RoutingEntry): (p: seq<real>)
    requires Sum(Pheromones(entry)) != 0.0
    ensures |p| == entry.Size()
    ensures forall i :: 0 <= i < |p| ==> p[i] * Sum(Pheromones(entry)) == entry.nextHops[i].phi
  {
    Scaled(Pheromones(entry), Sum(Pheromones(entry)))
  }

  /** The conditions under which a random number of 0 picks the first next
      hop: no negative pheromone, a positive total, and a random number in
      [0, 1]. */
  predicate Selectable(entry: RoutingEntry, r: real)
  {
    && (forall i :: 0 <= i < entry.Size() ==> entry.nextHops[i].phi >= 0.0)
    && Sum(Pheromones(entry)) > 0.0
    && 0.0 <= r <= 1.0
  }

  /** The index the `while (random_number > result[node_index])` scan stops
      at when started at `i`: the first index from `i` whose cumulative
      value reaches `r`, or `|cum|` when there is none (the scan would then
      read past the array). */
  function ScanIndex(cum: seq<real>, r: real, i: nat): (k: nat)
    requires i <= |cum|
    ensures i <= k <= |cum|
    ensures k < |cum| ==> r <= cum[k]
    ensures forall j :: i <= j < k ==> r > cum[j]
    decreases |cum| - i
  {
    if i == |cum| || r <= cum[i] then i else ScanIndex(cum, r, i + 1)
  }

  /** The index of the next hop chosen for random number `r`. */
  function SelectedIndex(entry: RoutingEntry, r: real): nat
    requires Sum(Pheromones(entry)) != 0.0
  {
    ScanIndex(CumSum(Probabilities(entry)), r, 0)
  }

  /** The last cumulative probability is 1, whatever the signs of the
      pheromone values, as long as their total is not zero. */
  lemma ProbabilitiesAddUpToOne(entry: RoutingEntry)
    requires Sum(Pheromones(entry)) != 0.0
    ensures entry.Size() > 0
    ensures CumSum(Probabilities(entry))[entry.Size() - 1] == 1.0
  {
    var phis := Pheromones(entry);
    var total := Sum(phis);
    var p := Probabilities(entry);
    assert p == Scaled(phis, total);
    CumSumLast(p);
    SumScaled(phis, total);
    assert Sum(p) == total / total == 1.0;
  }

  /** With a non-zero total and r <= 1, the scan stops inside the array, at
      the smallest index whose cumulative probability is at least `r`: the
      last cumulative probability is 1. */
  lemma SelectedIndexInRange(entry: RoutingEntry, r: real)
    requires Sum(Pheromones(entry)) != 0.0 && r <= 1.0
    ensures SelectedIndex(entry, r) < entry.Size()
    ensures r <= CumSum(Probabilities(entry))[SelectedIndex(entry, r)]
    ensures forall j :: 0 <= j < SelectedIndex(entry, r) ==> r > CumSum(Probabilities(entry))[j]
  {
    ProbabilitiesAddUpToOne(entry);
  }

  /** A normalised probability is never negative when no pheromone is. */
  lemma ProbabilitiesNonNegative(entry: RoutingEntry)
    requires Selectable(entry, 0.0)
    ensures forall i :: 0 <= i < entry.Size() ==> Probabilities(entry)[i] >= 0.0
  {
    var p := Probabilities(entry);
    var total := Sum(Pheromones(entry));
    forall i | 0 <= i < entry.Size()
      ensures p[i] >= 0.0
    {
      assert p[i] * total == entry.nextHops[i].phi;
    }
  }

  /** With r = 0 the first next hop is always chosen. */
  lemma ZeroSelectsFirstHop(entry: RoutingEntry)
    requires Selectable(entry, 0.0)
    ensures SelectedIndex(entry, 0.0) == 0
  {
    ProbabilitiesAddUpToOne(entry);
    ProbabilitiesNonNegative(entry);
    CumSumFirst(Probabilities(entry));
  }

  /** `ara_get_random_number`: `rand()/RAND_MAX` divides integers before
      converting, so the number is 1 exactly when `rand()` returned
      `RAND_MAX` and 0 otherwise. */
  function RandomNumber(rand: int, randMax: int): (r: real)
    requires 0 <= rand <= randMax && randMax > 0
    ensures r == 0.0 || r == 1.0
    ensures r == 1.0 <==> rand == randMax
  {
    (rand / randMax) as real
  }

  /** The normalisation loop of `ara_stochastic_forwarding`: every cell is
      divided by the pheromone total. */
  method Normalise(probabilities: array<real>, pheromoneSum: real)
    requires pheromoneSum != 0.0
    modifies probabilities
    ensures probabilities[..] == Scaled(old(probabilities[..]), pheromoneSum)
  {
    ghost var phis := probabilities[..];
    var i := 0;
    while i < probabilities.Length
      invariant 0 <= i <= probabilities.Length
      invariant probabilities[..i] == Scaled(phis, pheromoneSum)[..i]
      invariant probabilities[i..] == phis[i..]
    {
      assert probabilities[i] == phis[i];
      probabilities[i] := probabilities[i] / pheromoneSum;
      i := i + 1;
    }
  }

  /** `ara_stochastic_forwarding`: no hop for an entry with at most one next
      hop or when either temporary array cannot be allocated; otherwise the
      next hop at the index the scan of the cumulative probabilities
      selects. The entry is a value and is left unchanged. */
  method StochasticForwarding(entry: RoutingEntry, probabilitiesAllocated: bool,
                              resultAllocated: bool, randomNumber: real)
    returns (hop: Option<NextHop>)
    requires entry.Size() <= MaxNextHops
    requires entry.Size() > 1 && probabilitiesAllocated ==> Sum(Pheromones(entry)) != 0.0
    requires entry.Size() > 1 && probabilitiesAllocated && resultAllocated ==> randomNumber <= 1.0
    ensures hop.None? <==> entry.Size() <= 1 || !probabilitiesAllocated || !resultAllocated
    ensures hop.Some? ==> SelectedIndex(entry, randomNumber) < entry.Size() &&
                          hop.value == entry.nextHops[SelectedIndex(entry, randomNumber)]
  {
    if entry.Size() > 1 && probabilitiesAllocated {
      var size := entry.Size();
      ghost var phis := Pheromones(entry);
      var probabilities := new real[size];
      var pheromoneSum := 0.0;
      var j := 0;
      while j < size
        invariant 0 <= j <= size
        invariant probabilities[..j] == phis[..j]
        invariant pheromoneSum == Sum(phis[..j])
      {
        assert phis[..j + 1][..j] == phis[..j];
        probabilities[j] := entry.nextHops[j].phi;
        pheromoneSum := pheromoneSum + probabilities[j];
        j := j + 1;
      }
      assert phis[..size] == phis;
      ghost var normalised := Probabilities(entry);
      Normalise(probabilities, pheromoneSum);
      assert probabilities[..] == normalised;
      if resultAllocated {
        var result := new real[size];
        CumulativeSum(probabilities, result, size);
        assert probabilities[..size] == normalised;
        ghost var cum := CumSum(normalised);
        assert result[..] == cum;
        SelectedIndexInRange(entry, randomNumber);
        var nodeIndex := 0;
        while randomNumber > result[nodeIndex]
          invariant 0 <= nodeIndex <= SelectedIndex(entry, randomNumber)
          invariant ScanIndex(cum, randomNumber, nodeIndex) == SelectedIndex(entry, randomNumber)
          decreases size - nodeIndex
        {
          nodeIndex := nodeIndex + 1;
        }
        hop := Some(entry.nextHops[nodeIndex]);
        return;
      }
    }
    hop := None;
  }

  /** Whenever `rand()` returns less than `RAND_MAX`, forwarding with both
      arrays allocated takes the first next hop. */
  method ForwardWithRandBelowMax(entry: RoutingEntry, rand: int, randMax: int)
    returns (hop: Option<NextHop>)
    requires 1 < entry.Size() <= MaxNextHops
    requires Selectable(entry, 0.0)
    requires 0 <= rand < randMax
    ensures hop == Some(entry.nextHops[0])
  {
    ZeroSelectsFirstHop(entry);
    hop := StochasticForwarding(entry, true, true, RandomNumber(rand, randMax));
  }
}
