/** Counting samples in whole frames. Multiplication is spelled out as repeated addition
    wherever the number of channels is a variable. */
module Arithmetic {

  /** The number of samples in `frames` interleaved frames of `channels` samples each. */
  function Interleaved(frames: nat, channels: nat): nat {
    if frames == 0 then 0 else Interleaved(frames - 1, channels) + channels
  }

  lemma {:induction false} InterleavedIsProduct(frames: nat, channels: nat)
    ensures Interleaved(frames, channels) == frames * channels
  {
    if frames > 0 {
      InterleavedIsProduct(frames - 1, channels);
      assert frames * channels == (frames - 1) * channels + channels;
    }
  }

  lemma {:induction false} InterleavedSum(a: nat, b: nat, channels: nat)
    ensures Interleaved(a + b, channels) == Interleaved(a, channels) + Interleaved(b, channels)
  {
    if b > 0 {
      InterleavedSum(a, b - 1, channels);
    }
  }

  lemma {:induction false} InterleavedGrows(i: nat, n: nat, channels: nat)
    requires i < n
    ensures Interleaved(i, channels) + channels <= Interleaved(n, channels)
  {
    if i + 1 < n {
      InterleavedGrows(i, n - 1, channels);
    }
  }

  lemma {:induction false} FrameCount(frames: nat, channels: nat)
    requires 0 < channels
    ensures Interleaved(frames, channels) / channels == frames
    ensures Interleaved(frames, channels) % channels == 0
  {
    InterleavedIsProduct(frames, channels);
    DivideExact(frames, channels);
  }

  lemma DivideExact(k: nat, d: nat)
    requires 0 < d
    ensures (k * d) / d == k && (k * d) % d == 0
  {
    var n := k * d;
    assert n == d * (n / d) + n % d;
    MultiplesApart(d, n / d, k);
    MultiplesApart(d, k, n / d);
  }

  lemma MultiplesApart(d: nat, a: int, b: int)
    requires 0 < d
    ensures a < b ==> d * a + d <= d * b
  {
    if a < b {
      AtLeastOnce(d, b - a);
      Distribute(d, a, b);
    }
  }

  lemma AtLeastOnce(d: int, e: int)
    requires 0 < d && 0 < e
    ensures d <= d * e
  {
  }

  lemma Distribute(d: int, a: int, b: int)
    ensures d * (b - a) == d * b - d * a
  {
  }

  /** `n` samples are whole frames. */
  ghost predicate Whole(n: nat, channels: nat) {
    exists frames: nat :: n == Interleaved(frames, channels)
  }

  lemma WholeSum(a: nat, b: nat, channels: nat)
    requires Whole(a, channels) && Whole(b, channels)
    ensures Whole(a + b, channels)
  {
    var f: nat :| a == Interleaved(f, channels);
    var g: nat :| b == Interleaved(g, channels);
    InterleavedSum(f, g, channels);
  }

  lemma WholeDifference(a: nat, b: nat, channels: nat)
    requires b <= a && Whole(a, channels) && Whole(b, channels)
    ensures Whole(a - b, channels)
  {
    var f: nat :| a == Interleaved(f, channels);
    var g: nat :| b == Interleaved(g, channels);
    if g <= f {
      InterleavedSum(f - g, g, channels);
    } else {
      InterleavedGrows(f, g, channels);
      assert a - b == Interleaved(0, channels);
    }
  }

  /** Whole frames in terms of the remainder. */
  lemma WholeHasNoRemainder(n: nat, channels: nat)
    requires 0 < channels && Whole(n, channels)
    ensures n % channels == 0
  {
    var f: nat :| n == Interleaved(f, channels);
    FrameCount(f, channels);
  }
}
