/** A perturbation of a list of weights that keeps their sum: every weight gets
    a random offset drawn from [-min, min), where min is the smallest weight,
    and the mean of the offsets is subtracted again from every output. */
module EffortJitter {

  /** Sum of a sequence, accumulated from the front as a loop does. */
  function Sum(s: seq<real>): real
  {
    if s == [] then 0.0 else Sum(s[..|s| - 1]) + s[|s| - 1]
  }

  /** The mean of a non-empty sequence. */
  function Mean(s: seq<real>): real
    requires |s| > 0
  {
    Sum(s) / |s| as real
  }

  /** The smallest element of a non-empty sequence. */
  function Min(s: seq<real>): (m: real)
    requires |s| > 0
    ensures m in s
    ensures forall i :: 0 <= i < |s| ==> m <= s[i]
  {
    if |s| == 1 then s[0]
    else
      var m' := Min(s[..|s| - 1]);
      if s[|s| - 1] < m' then s[|s| - 1] else m'
  }

  /** A unit sample scaled onto a positive width. */
  function Scale(width: real, u: real): (x: real)
    requires width > 0.0 && 0.0 <= u < 1.0
    ensures 0.0 <= x < width
  {
    width * u
  }

  /** A uniform sample from [low, high): the random source supplies u in [0, 1)
      and the sample is scaled onto the range. */
  function UniformSample(low: real, high: real, u: real): (x: real)
    requires low < high && 0.0 <= u < 1.0
    ensures low <= x < high
  {
    low + Scale(high - low, u)
  }

  /** The count times the mean gives back the sum. */
  lemma CountTimesMean(s: seq<real>)
    requires |s| > 0
    ensures |s| as real * Mean(s) == Sum(s)
  {
  }

  /** What the random source must supply for a jitter of `original`: one unit
      sample per element, and a positive minimum so that the range
      [-min, min) is not empty. */
  predicate SamplesFit(original: seq<real>, samples: seq<real>)
  {
    && |samples| == |original|
    && (|original| > 0 ==> Min(original) > 0.0)
    && (forall i :: 0 <= i < |samples| ==> 0.0 <= samples[i] < 1.0)
  }

  /** The offsets drawn for `original`, one per element, each in [-min, min). */
  function Offsets(original: seq<real>, samples: seq<real>): (d: seq<real>)
    requires SamplesFit(original, samples)
    ensures |d| == |original|
    ensures |original| > 0 ==>
      forall i :: 0 <= i < |d| ==> -Min(original) <= d[i] < Min(original)
  {
    if |original| == 0 then []
    else
      var m := Min(original);
      seq(|original|, i requires 0 <= i < |original| => UniformSample(-1.0 * m, m, samples[i]))
  }

  /** `original[i] + offsets[i] - correction` for every index. */
  function Perturbed(original: seq<real>, offsets: seq<real>, correction: real): (p: seq<real>)
    requires |offsets| == |original|
    ensures |p| == |original|
  {
    seq(|original|, i requires 0 <= i < |original| => original[i] + offsets[i] - correction)
  }

  /** The jittered weights: each weight plus its offset minus the mean offset. */
  function Jittered(original: seq<real>, samples: seq<real>): (j: seq<real>)
    requires SamplesFit(original, samples)
    ensures |j| == |original|
  {
    if |original| == 0 then []
    else
      var offsets := Offsets(original, samples);
      Perturbed(original, offsets, Mean(offsets))
  }

  /** The jitter itself: the minimum weight, a loop that draws one offset per
      weight, the sum of the offsets, and a loop that builds the output. */
  method Jitter(original: seq<real>, samples: seq<real>) returns (jittered: seq<real>)
    requires SamplesFit(original, samples)
    ensures jittered == Jittered(original, samples)
  {
    jittered := [];
    if |original| == 0 {
      assert original == [];
      return;
    }
    var n := |original|;

    var min := Min(original);

    var jitter: seq<real> := [];
    for i := 0 to n
      invariant |jitter| == i
      invariant forall j :: 0 <= j < i ==> jitter[j] == Offsets(original, samples)[j]
    {
      jitter := jitter + [UniformSample(-1.0 * min, min, samples[i])];
    }
    assert jitter == Offsets(original, samples);

    var discrepancy := Sum(jitter);
    var correction := discrepancy / n as real;
    assert correction == Mean(jitter);

    for i := 0 to n
      invariant |jittered| == i
      invariant forall j :: 0 <= j < i ==> jittered[j] == original[j] + jitter[j] - correction
    {
      jittered := jittered + [original[i] + jitter[i] - correction];
    }
    assert jittered == Perturbed(original, jitter, correction);
  }

  lemma {:induction false} SumOfPerturbed(original: seq<real>, offsets: seq<real>, correction: real)
    requires |offsets| == |original|
    ensures Sum(Perturbed(original, offsets, correction))
         == Sum(original) + Sum(offsets) - |offsets| as real * correction
  {
    var n := |original|;
    if n > 0 {
      var p := Perturbed(original, offsets, correction);
      assert p[..n - 1] == Perturbed(original[..n - 1], offsets[..n - 1], correction);
      SumOfPerturbed(original[..n - 1], offsets[..n - 1], correction);
    }
  }

  /** The jitter keeps the sum of the weights. */
  lemma JitterKeepsSum(original: seq<real>, samples: seq<real>)
    requires SamplesFit(original, samples)
    ensures Sum(Jittered(original, samples)) == Sum(original)
  {
    if |original| > 0 {
      var offsets := Offsets(original, samples);
      CountTimesMean(offsets);
      CorrectionKeepsSum(original, offsets, Mean(offsets));
    }
  }

  /** A correction that n times over makes up the sum of the offsets takes
      that sum back out of the perturbed weights. */
  lemma CorrectionKeepsSum(original: seq<real>, offsets: seq<real>, correction: real)
    requires |offsets| == |original|
    requires |offsets| as real * correction == Sum(offsets)
    ensures Sum(Perturbed(original, offsets, correction)) == Sum(original)
  {
    SumOfPerturbed(original, offsets, correction);
  }

  /** The sum of n values from [low, high) lies in [n*low, n*high). */
  lemma {:induction false} SumBounds(s: seq<real>, low: real, high: real)
    requires |s| > 0
    requires forall i :: 0 <= i < |s| ==> low <= s[i] < high
    ensures |s| as real * low <= Sum(s) < |s| as real * high
  {
    var init := s[..|s| - 1];
    if |s| > 1 {
      SumBounds(init, low, high);
      OneMore(|init| as real, low);
      OneMore(|init| as real, high);
    } else {
      assert init == [];
    }
  }

  lemma OneMore(k: real, x: real)
    ensures (k + 1.0) * x == k * x + x
  {
  }

  /** Each jittered weight moves by less than twice the smallest weight: its
      offset and the mean offset both lie in [-min, min). */
  lemma JitterBounded(original: seq<real>, samples: seq<real>)
    requires SamplesFit(original, samples)
    ensures forall i :: 0 <= i < |original| ==>
      -2.0 * Min(original) < Jittered(original, samples)[i] - original[i] < 2.0 * Min(original)
  {
    if |original| > 0 {
      var m := Min(original);
      var offsets := Offsets(original, samples);
      MeanBounds(offsets, -m, m);
      var j := Jittered(original, samples);
      forall i | 0 <= i < |original|
        ensures -2.0 * m < j[i] - original[i] < 2.0 * m
      {
        assert j[i] - original[i] == offsets[i] - Mean(offsets);
      }
    }
  }

  /** The mean of values from [low, high) lies in [low, high). */
  lemma MeanBounds(s: seq<real>, low: real, high: real)
    requires |s| > 0
    requires forall i :: 0 <= i < |s| ==> low <= s[i] < high
    ensures low <= Mean(s) < high
  {
    var n := |s| as real;
    var total := Sum(s);
    SumBounds(s, low, high);
    assert total / n - low == (total - n * low) / n;
    assert high - total / n == (n * high - total) / n;
  }

  /** A single weight comes back unchanged: the mean offset is its own offset. */
  lemma JitterSingleton(w: real, u: real)
    requires SamplesFit([w], [u])
    ensures Jittered([w], [u]) == [w]
  {
    var offsets := Offsets([w], [u]);
    assert Sum(offsets) == offsets[0] by {
      assert offsets[..0] == [];
    }
  }

  /** No weights, no output. */
  lemma JitterEmpty()
    ensures Jittered([], []) == []
  {
  }

  /** The input of the unit test, with samples that put the first offset at
      -min and the others near +min: the first output falls below zero, so the
      outputs of the jitter are not always non-negative. */
  lemma JitterCanGoNegative()
    ensures SamplesFit([1.0, 2.0, 3.0, 4.0], [0.0, 0.99, 0.99, 0.99])
    ensures Jittered([1.0, 2.0, 3.0, 4.0], [0.0, 0.99, 0.99, 0.99])[0] < 0.0
  {
    var o := [1.0, 2.0, 3.0, 4.0];
    var u := [0.0, 0.99, 0.99, 0.99];
    var d := [-1.0, 0.98, 0.98, 0.98];
    ExampleMin(o);
    ExampleOffsets(o, u);
    ExampleSum(d);
    assert Jittered(o, u)[0] == o[0] + d[0] - Sum(d) / 4.0;
  }

  lemma ExampleMin(o: seq<real>)
    requires o == [1.0, 2.0, 3.0, 4.0]
    ensures Min(o) == 1.0
  {
    assert o[..3] == [1.0, 2.0, 3.0];
    assert [1.0, 2.0, 3.0][..2] == [1.0, 2.0];
    assert [1.0, 2.0][..1] == [1.0];
  }

  lemma ExampleOffsets(o: seq<real>, u: seq<real>)
    requires o == [1.0, 2.0, 3.0, 4.0] && u == [0.0, 0.99, 0.99, 0.99]
    requires Min(o) == 1.0
    ensures SamplesFit(o, u)
    ensures Offsets(o, u) == [-1.0, 0.98, 0.98, 0.98]
  {
  }

  lemma ExampleSum(d: seq<real>)
    requires d == [-1.0, 0.98, 0.98, 0.98]
    ensures Sum(d) == 1.94
  {
    assert d[..3] == [-1.0, 0.98, 0.98];
    assert [-1.0, 0.98, 0.98][..2] == [-1.0, 0.98];
    assert [-1.0, 0.98][..1] == [-1.0];
    assert [-1.0][..0] == [];
  }
}
