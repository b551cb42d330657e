/** ARA's numeric helper: the cumulative sum the roulette-wheel selector
    builds over the normalised pheromone values. Floating-point values are
    modelled as exact reals. */
module AraHelper {

  /** The total of a sequence, adding its elements from the front. */
  function Sum(s: seq<real>): real
  {
    if s == [] then 0.0 else Sum(s[..|s| - 1]) + s[|s| - 1]
  }

  /** The cumulative sums of `s`: cell `i` holds the total of `s[..i+1]`. */
  function CumSum(s: seq<real>): (c: seq<real>)
    ensures |c| == |s|
  {
    seq(|s|, i requires 0 <= i < |s| => Sum(s[..i + 1]))
  }

  /** The recurrence stated for `cumsum`, first half: the first output is
      the first input. */
  lemma CumSumFirst(s: seq<real>)
    requires s != []
    ensures CumSum(s)[0] == s[0]
  {
    assert s[..1][..0] == [];
    assert Sum(s[..1]) == s[0];
  }

  /** The recurrence stated for `cumsum`, second half: every later output is
      the previous output plus the next input. */
  lemma CumSumStep(s: seq<real>, i: nat)
    requires 0 < i < |s|
    ensures CumSum(s)[i] == CumSum(s)[i - 1] + s[i]
  {
    assert s[..i + 1][..i] == s[..i];
  }

  /** The last cumulative sum is the total of the input. */
  lemma CumSumLast(s: seq<real>)
    requires s != []
    ensures CumSum(s)[|s| - 1] == Sum(s)
  {
    assert s[..|s|] == s;
  }

  /** Totals of non-negative values are non-negative. */
  lemma {:induction false} SumNonNegative(s: seq<real>)
    requires forall k :: 0 <= k < |s| ==> s[k] >= 0.0
    ensures Sum(s) >= 0.0
    decreases |s|
  {
    if s != [] {
      SumNonNegative(s[..|s| - 1]);
    }
  }

  /** For non-negative inputs the cumulative sums never decrease. */
  lemma {:induction false} CumSumMonotone(s: seq<real>, i: nat, j: nat)
    requires forall k :: 0 <= k < |s| ==> s[k] >= 0.0
    requires i <= j < |s|
    ensures CumSum(s)[i] <= CumSum(s)[j]
    decreases j - i
  {
    if i < j {
      CumSumMonotone(s, i, j - 1);
      CumSumStep(s, j);
    }
  }

  /** Dividing every element by `d` divides the total by `d`. */
  lemma {:induction false} SumScaled(s: seq<real>, d: real)
    requires d != 0.0
    ensures Sum(Scaled(s, d)) == Sum(s) / d
    decreases |s|
  {
    if s != [] {
      var t := s[..|s| - 1];
      SumScaled(t, d);
      assert Scaled(s, d)[..|s| - 1] == Scaled(t, d);
    }
  }

  /** Every element of `s` divided by `d`. */
  function Scaled(s: seq<real>, d: real): (r: seq<real>)
    requires d != 0.0
    ensures |r| == |s|
    ensures forall k :: 0 <= k < |s| ==> r[k] * d == s[k]
  {
    seq(|s|, k requires 0 <= k < |s| => s[k] / d)
  }

  /** `cumsum(input, output, size)`: writes the cumulative sums of the first
      `size` inputs into the first `size` output cells. The input, declared
      `[in]`, is left as it was, and so are the output cells past `size`. */
  method CumulativeSum(input: array<real>, output: array<real>, size: nat)
    requires size <= input.Length && size <= output.Length
    requires input != output
    modifies output
    ensures output[..size] == CumSum(input[..size])
    ensures output[size..] == old(output[size..])
    ensures input[..] == old(input[..])
  {
    ghost var inp := input[..size];
    if size == 0 {
      return;
    }
    output[0] := input[0];
    assert inp[..1][..0] == [];
    var i := 1;
    while i < size
      invariant 1 <= i <= size
      invariant forall k :: 0 <= k < i ==> output[k] == Sum(inp[..k + 1])
      invariant output[size..] == old(output[size..])
    {
      assert inp[..i + 1][..i] == inp[..i];
      output[i] := output[i - 1] + input[i];
      i := i + 1;
    }
  }
}
