/** The perceptual hash of a frame: which of its 64 grey samples reach the frame's own mean. */
module LivenessHash {
  const SIDE := 8

  predicate IsGrid(samples: seq<real>) { |samples| == SIDE * SIDE }

  function Sum(s: seq<real>): real {
    if s == [] then 0.0 else Sum(s[..|s| - 1]) + s[|s| - 1]
  }

  function Mean(samples: seq<real>): real
    requires IsGrid(samples)
  {
    Sum(samples) / 64.0
  }

  predicate IsHash(h: seq<bool>) { |h| == SIDE * SIDE }

  ghost predicate HashOf(samples: seq<real>, h: seq<bool>)
    requires IsGrid(samples)
  {
    IsHash(h) && forall i :: 0 <= i < |h| ==> (h[i] <==> samples[i] >= Mean(samples))
  }

  function AverageHash(samples: seq<real>): (h: seq<bool>)
    requires IsGrid(samples)
    ensures HashOf(samples, h)
  {
    seq(SIDE * SIDE, i requires 0 <= i < SIDE * SIDE => samples[i] >= Mean(samples))
  }

  /** The two loops of the source: one sums, the other sets bits. */
  method ComputeHash(samples: seq<real>) returns (h: seq<bool>)
    requires IsGrid(samples)
    ensures h == AverageHash(samples)
  {
    var sum := 0.0;
    for y := 0 to SIDE
      invariant sum == Sum(samples[..y * SIDE])
    {
      for x := 0 to SIDE
        invariant sum == Sum(samples[..y * SIDE + x])
      {
        var k := y * SIDE + x;
        assert samples[..k + 1][..k] == samples[..k];
        sum := sum + samples[k];
      }
    }
    assert samples[..SIDE * SIDE] == samples;
    var mean := sum / 64.0;
    h := [];
    for i := 0 to |samples|
      invariant |h| == i && forall k :: 0 <= k < i ==> (h[k] <==> samples[k] >= mean)
    {
      h := h + [samples[i] >= mean];
    }
  }

  lemma {:induction false} SumScales(s: seq<real>, t: seq<real>, gain: real, offset: real)
    requires |s| == |t| && forall i :: 0 <= i < |s| ==> t[i] == gain * s[i] + offset
    ensures Sum(t) == gain * Sum(s) + offset * |s| as real
    decreases |s|
  {
    if s != [] {
      var n := |s| - 1;
      SumScales(s[..n], t[..n], gain, offset);
      assert gain * (Sum(s[..n]) + s[n]) == gain * Sum(s[..n]) + gain * s[n];
      assert offset * (n as real + 1.0) == offset * n as real + offset;
    }
  }

  /** Brightening or stretching the contrast of a whole frame does not disguise it. */
  lemma ExposureKeepsTheHash(s: seq<real>, t: seq<real>, gain: real, offset: real)
    requires IsGrid(s) && IsGrid(t) && gain > 0.0
    requires forall i :: 0 <= i < |s| ==> t[i] == gain * s[i] + offset
    ensures AverageHash(s) == AverageHash(t)
  {
    SumScales(s, t, gain, offset);
    var m := Mean(s);
    assert Sum(t) == gain * (64.0 * m) + offset * 64.0;
    assert Mean(t) == gain * m + offset;
    forall i | 0 <= i < |s| ensures AverageHash(s)[i] == AverageHash(t)[i] {
      GainPreservesOrder(s[i], m, gain, offset);
      assert AverageHash(s)[i] <==> s[i] >= m;
      assert AverageHash(t)[i] <==> t[i] >= Mean(t);
    }
  }

  lemma GainPreservesOrder(x: real, y: real, gain: real, offset: real)
    requires gain > 0.0
    ensures x >= y <==> gain * x + offset >= gain * y + offset
  {
    assert gain * x - gain * y == gain * (x - y);
  }

  // --- Hamming distance ---

  function Distance(a: seq<bool>, b: seq<bool>): nat
    requires |a| == |b|
  {
    if a == [] then 0 else (if a[0] == b[0] then 0 else 1) + Distance(a[1..], b[1..])
  }

  lemma {:induction false} DistanceZero(a: seq<bool>, b: seq<bool>)
    requires |a| == |b|
    ensures Distance(a, b) == 0 <==> a == b
    decreases |a|
  {
    if a != [] {
      DistanceZero(a[1..], b[1..]);
      assert a == [a[0]] + a[1..] && b == [b[0]] + b[1..];
    }
  }

  lemma {:induction false} DistanceIsAMetric(a: seq<bool>, b: seq<bool>, c: seq<bool>)
    requires |a| == |b| == |c|
    ensures Distance(a, b) == Distance(b, a)
    ensures Distance(a, c) <= Distance(a, b) + Distance(b, c)
    ensures Distance(a, b) <= |a|
    decreases |a|
  {
    if a != [] {
      DistanceIsAMetric(a[1..], b[1..], c[1..]);
    }
  }
}
