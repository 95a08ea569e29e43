// The down-sampler (nescore/src/utils/sampler.rs): reduces the APU's raw
// sample stream to the host's playback rate by keeping every `rate`-th
// sample, where `rate` is the input rate divided by the output rate and
// truncated. The rates are f32 in the source; here they are natural
// numbers, so the truncation is integer division.

module DownSampling {
  /** A sample as the mixer produces it; the model only moves samples around. */
  type Sample = real

  /**
   * DownSampler::new: the stride is the integer part of the rate ratio. An
   * output rate of zero is an f32 division by zero in the source and is
   * excluded.
   */
  function Stride(inputRate: nat, outputRate: nat): (rate: nat)
    requires outputRate > 0
    ensures rate * outputRate <= inputRate < (rate + 1) * outputRate
  {
    inputRate / outputRate
  }

  /** Integer division is determined by quotient and remainder. */
  lemma DivUnique(x: nat, r: nat, q: nat, m: nat)
    requires r > 0 && x == q * r + m && m < r
    ensures x / r == q
  {
    var q', m' := x / r, x % r;
    assert x == q' * r + m';
    if q' < q {
      assert q' * r + r <= q * r by { MulLe(q' + 1, q, r); }
    } else if q < q' {
      assert q * r + r <= q' * r by { MulLe(q + 1, q', r); }
    }
  }

  lemma MulLe(a: nat, b: nat, r: nat)
    requires a <= b
    ensures a * r <= b * r
  {
  }

  lemma MulSucc(i: nat, r: nat)
    requires i > 0
    ensures i * r == (i - 1) * r + r
  {
  }

  /** Dropping one stride from a longer buffer takes one off the quotient. */
  lemma DivStep(x: nat, r: nat)
    requires x >= r > 0
    ensures (x - r) / r + 1 == x / r
  {
    var q, m := (x - r) / r, (x - r) % r;
    assert x == (q + 1) * r + m;
    DivUnique(x, r, q + 1, m);
  }

  /** `i * r` by repeated addition, so that proofs about strides stay linear. */
  function Times(i: nat, r: nat): nat
  {
    if i == 0 then 0 else Times(i - 1, r) + r
  }

  lemma {:induction false} TimesIsProduct(i: nat, r: nat)
    ensures Times(i, r) == i * r
  {
    if i > 0 {
      TimesIsProduct(i - 1, r);
      MulSucc(i, r);
    }
  }

  /**
   * into_iter: `step_by(rate)` over the buffer, which panics for a stride of
   * zero. The result holds buffer[0], buffer[rate], buffer[2 * rate], ... and
   * has ceil(|buffer| / rate) elements.
   */
  function StepBy(buffer: seq<Sample>, rate: nat): (r: seq<Sample>)
    requires rate > 0
    ensures |r| == (|buffer| + rate - 1) / rate
    ensures forall i :: 0 <= i < |r| ==> Times(i, rate) < |buffer| && r[i] == buffer[Times(i, rate)]
    decreases |buffer|
  {
    if |buffer| == 0 then
      DivUnique(rate - 1, rate, 0, rate - 1);
      []
    else if |buffer| <= rate then
      DivUnique(|buffer| + rate - 1, rate, 1, |buffer| - 1);
      [buffer[0]]
    else
      var rest := StepBy(buffer[rate..], rate);
      StepByCons(buffer, rate, rest);
      [buffer[0]] + rest
  }

  /** The step of StepBy: the first sample followed by the stream of the rest after one stride. */
  lemma StepByCons(buffer: seq<Sample>, rate: nat, rest: seq<Sample>)
    requires 0 < rate < |buffer|
    requires |rest| == (|buffer| - rate + rate - 1) / rate
    requires forall i :: 0 <= i < |rest| ==> Times(i, rate) < |buffer| - rate && rest[i] == buffer[rate..][Times(i, rate)]
    ensures |[buffer[0]] + rest| == (|buffer| + rate - 1) / rate
    ensures forall i :: 0 <= i < |[buffer[0]] + rest| ==>
      Times(i, rate) < |buffer| && ([buffer[0]] + rest)[i] == buffer[Times(i, rate)]
  {
    DivStep(|buffer| + rate - 1, rate);
    var r := [buffer[0]] + rest;
    forall i | 0 < i < |r|
      ensures Times(i, rate) < |buffer| && r[i] == buffer[Times(i, rate)]
    {
      assert r[i] == rest[i - 1];
    }
  }

  /** The k-th sample kept is the sample at k times the stride. */
  lemma StepByAt(buffer: seq<Sample>, rate: nat, k: nat)
    requires rate > 0 && k < |StepBy(buffer, rate)|
    ensures k * rate < |buffer| && StepBy(buffer, rate)[k] == buffer[k * rate]
  {
    TimesIsProduct(k, rate);
  }

  /** A stride of one keeps the whole stream. */
  lemma StrideOneKeepsAll(buffer: seq<Sample>)
    ensures StepBy(buffer, 1) == buffer
  {
  }

  /** The `downsample` test: 100 samples from 100 down to 10 leave 10 samples. */
  lemma DownsampleExample(buffer: seq<Sample>)
    requires |buffer| == 100
    ensures |StepBy(buffer, Stride(100, 10))| == 10
  {
  }
}
